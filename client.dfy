/** The root client (`Mixcloud`) and its upload: the multipart form that
    describes a cloudcast, with one indexed group of fields per section and
    one indexed field per tag, and the attached files. */
module Client {
  import opened Values
  import opened Decimal
  import opened Http
  import opened Entities

  const API_ROOT := "https://api.mixcloud.com"

  /** The root client: where the API lives and the access token, if one was
      given or found at construction. */
  datatype Mixcloud = Mixcloud(apiRoot: string, accessToken: Option<string>)

  /** `Mixcloud(access_token=token)`: a client on the default API root. */
  function DefaultClient(accessToken: Option<string>): Mixcloud {
    Mixcloud(API_ROOT, accessToken)
  }

  /** `params={"access_token": token}` as `requests` sends it: a None token
      sends no parameter at all. */
  function TokenQuery(token: Option<string>): (p: map<string, string>)
    ensures "access_token" in p <==> token.Some?
    ensures token.Some? ==> p["access_token"] == token.value
    ensures p.Keys <= {"access_token"}
  {
    if token.Some? then map["access_token" := token.value] else map[]
  }

  // ---------------------------------------------------------------------
  // The form field names.

  /** `"sections-%d-" + field % num`. */
  function SectionKey(i: nat, field: string): string {
    "sections-" + NatToString(i) + "-" + field
  }

  /** `"tags-%s-tag" % num`. */
  function TagKey(i: nat): string {
    "tags-" + NatToString(i) + "-tag"
  }

  const FIXED_KEYS: set<string> := {"name", "percentage_music", "description"}

  /** The fields of the first `n` sections. */
  function SectionKeys(n: nat): set<string> {
    if n == 0 then {}
    else SectionKeys(n - 1) + {SectionKey(n - 1, "artist"), SectionKey(n - 1, "song"), SectionKey(n - 1, "start_time")}
  }

  /** The fields of the first `n` tags. */
  function TagKeys(n: nat): set<string> {
    if n == 0 then {} else TagKeys(n - 1) + {TagKey(n - 1)}
  }

  function PayloadKeys(sections: nat, tags: nat): set<string> {
    FIXED_KEYS + SectionKeys(sections) + TagKeys(tags)
  }

  /** Two section fields have the same name only for the same section and
      the same field. */
  lemma SectionKeyInjective(i: nat, f: string, j: nat, g: string)
    requires SectionKey(i, f) == SectionKey(j, g)
    ensures i == j && f == g
  {
    var head := "sections-";
    assert SectionKey(i, f) == head + (NatToString(i) + ("-" + f));
    assert SectionKey(j, g) == head + (NatToString(j) + ("-" + g));
    assert NatToString(i) + ("-" + f) == SectionKey(i, f)[|head|..] == NatToString(j) + ("-" + g);
    NumeralThenSeparator(i, j, "-" + f, "-" + g);
    assert f == ("-" + f)[1..] == ("-" + g)[1..] == g;
  }

  lemma TagKeyInjective(i: nat, j: nat)
    requires TagKey(i) == TagKey(j)
    ensures i == j
  {
    var head := "tags-";
    assert TagKey(i) == head + (NatToString(i) + "-tag");
    assert TagKey(j) == head + (NatToString(j) + "-tag");
    assert NatToString(i) + "-tag" == TagKey(i)[|head|..] == NatToString(j) + "-tag";
    NumeralThenSeparator(i, j, "-tag", "-tag");
  }

  /** Section fields start with 's' and tag fields with 't'. */
  lemma {:induction false} KeysByFirstLetter(s: nat, t: nat)
    ensures forall k | k in SectionKeys(s) :: |k| > 0 && k[0] == 's'
    ensures forall k | k in TagKeys(t) :: |k| > 0 && k[0] == 't'
  {
    if s > 0 {
      KeysByFirstLetter(s - 1, 0);
    }
    if t > 0 {
      KeysByFirstLetter(0, t - 1);
    }
  }

  /** The fixed fields, section fields and tag fields never share a name. */
  lemma KeyGroupsDisjoint(s: nat, t: nat)
    ensures FIXED_KEYS !! SectionKeys(s) && FIXED_KEYS !! TagKeys(t) && SectionKeys(s) !! TagKeys(t)
  {
    KeysByFirstLetter(s, t);
    assert forall k | k in FIXED_KEYS :: k[0] in {'n', 'p', 'd'};
  }

  lemma {:induction false} SectionKeyOutside(n: nat, i: nat, f: string)
    requires n <= i
    ensures SectionKey(i, f) !in SectionKeys(n)
  {
    if n > 0 {
      SectionKeyOutside(n - 1, i, f);
      if SectionKey(i, f) in {SectionKey(n - 1, "artist"), SectionKey(n - 1, "song"), SectionKey(n - 1, "start_time")} {
        var g :| g in {"artist", "song", "start_time"} && SectionKey(i, f) == SectionKey(n - 1, g);
        SectionKeyInjective(i, f, n - 1, g);
      }
    }
  }

  lemma {:induction false} TagKeyOutside(n: nat, i: nat)
    requires n <= i
    ensures TagKey(i) !in TagKeys(n)
  {
    if n > 0 {
      TagKeyOutside(n - 1, i);
      if TagKey(i) == TagKey(n - 1) {
        TagKeyInjective(i, n - 1);
      }
    }
  }

  /** The three fields of section `n` are pairwise distinct and new to the
      fields of the sections before it. */
  lemma SectionFieldsFresh(n: nat)
    ensures SectionKey(n, "artist") !in SectionKeys(n)
    ensures SectionKey(n, "song") !in SectionKeys(n) + {SectionKey(n, "artist")}
    ensures SectionKey(n, "start_time") !in SectionKeys(n) + {SectionKey(n, "artist"), SectionKey(n, "song")}
  {
    SectionKeyOutside(n, n, "artist");
    SectionKeyOutside(n, n, "song");
    SectionKeyOutside(n, n, "start_time");
    if SectionKey(n, "song") == SectionKey(n, "artist") {
      SectionKeyInjective(n, "song", n, "artist");
    }
    if SectionKey(n, "start_time") == SectionKey(n, "artist") {
      SectionKeyInjective(n, "start_time", n, "artist");
    }
    if SectionKey(n, "start_time") == SectionKey(n, "song") {
      SectionKeyInjective(n, "start_time", n, "song");
    }
  }

  /** The three fields of section `n` are new, distinct from each other and
      from every field already in a form with `n` sections and no tags. */
  lemma NewSectionKeys(n: nat)
    ensures SectionKey(n, "artist") !in PayloadKeys(n, 0)
    ensures SectionKey(n, "song") !in PayloadKeys(n, 0) + {SectionKey(n, "artist")}
    ensures SectionKey(n, "start_time") !in PayloadKeys(n, 0) + {SectionKey(n, "artist"), SectionKey(n, "song")}
  {
    SectionFieldsFresh(n);
    KeyGroupsDisjoint(n + 1, 0);
    assert SectionKeys(n + 1) == SectionKeys(n) + {SectionKey(n, "artist"), SectionKey(n, "song"), SectionKey(n, "start_time")};
  }

  /** The field of tag `n` is new in a form with `n` tags. */
  lemma NewTagKey(s: nat, n: nat)
    ensures TagKey(n) !in PayloadKeys(s, n)
  {
    TagKeyOutside(n, n);
    KeyGroupsDisjoint(s, n + 1);
    assert TagKey(n) in TagKeys(n + 1);
  }

  lemma AddNew(a: set<string>, x: string)
    requires x !in a
    ensures |a + {x}| == |a| + 1
  {
  }

  lemma DisjointUnion(a: set<string>, b: set<string>)
    requires a !! b
    ensures |a + b| == |a| + |b|
  {
  }

  lemma {:induction false} SectionKeysCount(n: nat)
    ensures |SectionKeys(n)| == 3 * n
  {
    if n > 0 {
      SectionKeysCount(n - 1);
      SectionFieldsFresh(n - 1);
      var a, b, c := SectionKey(n - 1, "artist"), SectionKey(n - 1, "song"), SectionKey(n - 1, "start_time");
      var p := SectionKeys(n - 1);
      AddNew(p, a);
      AddNew(p + {a}, b);
      AddNew(p + {a} + {b}, c);
      assert SectionKeys(n) == p + {a} + {b} + {c};
    }
  }

  lemma {:induction false} TagKeysCount(n: nat)
    ensures |TagKeys(n)| == n
  {
    if n > 0 {
      TagKeysCount(n - 1);
      TagKeyOutside(n - 1, n - 1);
      AddNew(TagKeys(n - 1), TagKey(n - 1));
    }
  }

  lemma FixedKeysCount()
    ensures |FIXED_KEYS| == 3
  {
    var n, m, d := "name", "percentage_music", "description";
    assert n[0] != m[0] && n[0] != d[0] && m[0] != d[0];
    AddNew({n}, m);
    AddNew({n, m}, d);
  }

  /** The form has 3 + 3 * sections + tags distinct fields. */
  lemma PayloadKeysCount(s: nat, t: nat)
    ensures |PayloadKeys(s, t)| == 3 + 3 * s + t
  {
    FixedKeysCount();
    SectionKeysCount(s);
    TagKeysCount(t);
    KeyGroupsDisjoint(s, t);
    DisjointUnion(FIXED_KEYS, SectionKeys(s));
    DisjointUnion(FIXED_KEYS + SectionKeys(s), TagKeys(t));
  }

  // ---------------------------------------------------------------------
  // The form.

  predicate MapsTo<V(==)>(m: map<string, V>, k: string, v: V) {
    k in m && m[k] == v
  }

  /** The three fields of section `i`: artist name, track name, start time. */
  predicate SectionFields(p: map<string, Json>, i: nat, sec: Section) {
    MapsTo(p, SectionKey(i, "artist"), sec.track.artist.name) &&
    MapsTo(p, SectionKey(i, "song"), sec.track.name) &&
    MapsTo(p, SectionKey(i, "start_time"), sec.startTime)
  }

  /** A form filled with the fixed fields, the first `s` sections and the
      first `t` tags, and nothing else. */
  predicate FormUpTo(p: map<string, Json>, name: Json, description: Json,
                     sections: seq<Section>, s: nat, tags: seq<Tag>, t: nat)
    requires s <= |sections| && t <= |tags|
  {
    p.Keys == PayloadKeys(s, t) &&
    MapsTo(p, "name", name) && MapsTo(p, "percentage_music", JInt(100)) &&
    MapsTo(p, "description", description) &&
    (forall i | 0 <= i < s :: SectionFields(p, i, sections[i])) &&
    (forall i | 0 <= i < t :: MapsTo(p, TagKey(i), tags[i].name))
  }

  /** The upload form of a cloudcast: its name, `percentage_music` 100, its
      description, the fields of every section and every tag, and nothing
      else. A tag's value is its name, the string the form carries. */
  predicate IsUploadPayload(p: map<string, Json>, name: Json, description: Json,
                            sections: seq<Section>, tags: seq<Tag>) {
    FormUpTo(p, name, description, sections, |sections|, tags, |tags|)
  }

  /** Adding the three fields of the next section extends the form by it. */
  lemma SectionStep(p: map<string, Json>, name: Json, description: Json,
                    sections: seq<Section>, num: nat, tags: seq<Tag>)
    requires num < |sections|
    requires FormUpTo(p, name, description, sections, num, tags, 0)
    ensures var sec := sections[num];
            FormUpTo(p[SectionKey(num, "artist") := sec.track.artist.name]
                      [SectionKey(num, "song") := sec.track.name]
                      [SectionKey(num, "start_time") := sec.startTime],
                     name, description, sections, num + 1, tags, 0)
  {
    NewSectionKeys(num);
    assert PayloadKeys(num + 1, 0) == PayloadKeys(num, 0) +
      {SectionKey(num, "artist"), SectionKey(num, "song"), SectionKey(num, "start_time")};
  }

  /** Adding the field of the next tag extends the form by it. */
  lemma TagStep(p: map<string, Json>, name: Json, description: Json,
                sections: seq<Section>, tags: seq<Tag>, num: nat)
    requires num < |tags|
    requires FormUpTo(p, name, description, sections, |sections|, tags, num)
    ensures FormUpTo(p[TagKey(num) := tags[num].name], name, description, sections, |sections|, tags, num + 1)
  {
    NewTagKey(|sections|, num);
    assert PayloadKeys(|sections|, num + 1) == PayloadKeys(|sections|, num) + {TagKey(num)};
  }

  /** The `payload` dict of `upload`, filled field by field. */
  method BuildPayload(name: Json, description: Json, sections: seq<Section>, tags: seq<Tag>)
    returns (payload: map<string, Json>)
    ensures IsUploadPayload(payload, name, description, sections, tags)
    ensures |payload| == 3 + 3 * |sections| + |tags|
  {
    payload := map["name" := name, "percentage_music" := JInt(100), "description" := description];
    assert PayloadKeys(0, 0) == FIXED_KEYS;
    for num := 0 to |sections|
      invariant FormUpTo(payload, name, description, sections, num, tags, 0)
    {
      SectionStep(payload, name, description, sections, num, tags);
      var sec := sections[num];
      payload := payload[SectionKey(num, "artist") := sec.track.artist.name];
      payload := payload[SectionKey(num, "song") := sec.track.name];
      payload := payload[SectionKey(num, "start_time") := sec.startTime];
    }
    for num := 0 to |tags|
      invariant FormUpTo(payload, name, description, sections, |sections|, tags, num)
    {
      TagStep(payload, name, description, sections, tags, num);
      payload := payload[TagKey(num) := tags[num].name];
    }
    PayloadKeysCount(|sections|, |tags|);
  }

  /** The upload's files: always `mp3`, and `picture` when one is given. */
  predicate IsUploadFiles(files: map<string, FileRef>, mp3: FileRef, picture: Option<FileRef>) {
    MapsTo(files, "mp3", mp3) &&
    ("picture" in files <==> picture.Some?) &&
    (picture.Some? ==> files["picture"] == picture.value) &&
    files.Keys <= {"mp3", "picture"}
  }

  /** The `files` dict of `upload`. */
  method BuildFiles(mp3: FileRef, picture: Option<FileRef>) returns (files: map<string, FileRef>)
    ensures IsUploadFiles(files, mp3, picture)
  {
    files := map["mp3" := mp3];
    if picture.Some? {
      files := files["picture" := picture.value];
    }
  }

  /** `upload(cloudcast, mp3file, picturefile)` over the cloudcast's resolved
      name, description, sections and tags: one POST to `/upload/` carrying
      the form, the files and the token. */
  method Upload(net: Network, m: Mixcloud, name: Json, description: Json, sections: seq<Section>,
                tags: seq<Tag>, mp3: FileRef, picture: Option<FileRef>) returns (r: Result<Response>)
    modifies net
    ensures |net.log| == |old(net.log)| + 1 && net.log[..|old(net.log)|] == old(net.log)
    ensures var req := net.log[|net.log| - 1];
            req.verb == POST && req.url == m.apiRoot + "/upload/" &&
            req.params == TokenQuery(m.accessToken) &&
            IsUploadPayload(req.form, name, description, sections, tags) &&
            IsUploadFiles(req.files, mp3, picture) &&
            r == CheckStatus(POST, net.server(req))
  {
    var payload := BuildPayload(name, description, sections, tags);
    var files := BuildFiles(mp3, picture);
    r := Post(net, m.apiRoot + "/upload/", payload, TokenQuery(m.accessToken), files);
  }
}
