/** The value entities the core needs (Artist, Track, Section, Tag, the
    identity part of User) and their construction from JSON dictionaries.
    Every field keeps the JSON value the dictionary held, as the dataclasses
    do: nothing converts or checks it. */
module Entities {
  import opened Values

  datatype Artist = Artist(key: Json, name: Json)
  datatype Track = Track(name: Json, artist: Artist)
  /** `start_time` is an offset into the audio, kept as the API sent it. */
  datatype Section = Section(startTime: Json, track: Track)
  /** A tag; its string form (`Tag.__str__`) is its name. */
  datatype Tag = Tag(key: Json, url: Json, name: Json)

  /** The two fields `User.from_json` copies. */
  datatype UserId = UserId(key: Json, name: Json)

  /** `Artist.from_json(d)`: `Artist(d["slug"], d["name"])`. */
  function ArtistFromJson(d: Json): Result<Artist> {
    var slug :- Index(d, "slug");
    var name :- Index(d, "name");
    Ok(Artist(slug, name))
  }

  /** `Track.from_json(d)`: `Track(d["name"], Artist.from_json(d["artist"]))`. */
  function TrackFromJson(d: Json): Result<Track> {
    var name :- Index(d, "name");
    var artistJson :- Index(d, "artist");
    var artist :- ArtistFromJson(artistJson);
    Ok(Track(name, artist))
  }

  /** `Section.from_json(d)`; Python evaluates `d["start_time"]` first. */
  function SectionFromJson(d: Json): Result<Section> {
    var start :- Index(d, "start_time");
    var trackJson :- Index(d, "track");
    var track :- TrackFromJson(trackJson);
    Ok(Section(start, track))
  }

  function SectionsFromSeq(ds: seq<Json>): (r: Result<seq<Section>>)
    ensures r.Ok? ==> |r.value| == |ds|
  {
    if ds == [] then Ok([])
    else
      var first :- SectionFromJson(ds[0]);
      var rest :- SectionsFromSeq(ds[1..]);
      Ok([first] + rest)
  }

  /** `Section.list_from_json(d)`: the sections of the entries, in order;
      the first entry that cannot be read raises. */
  function SectionsFromJson(d: Json): Result<seq<Section>> {
    var entries :- Iterate(d);
    SectionsFromSeq(entries)
  }

  /** Every section the list decoder returns is the decoding of the entry at
      the same position, and it fails only when some entry fails. */
  lemma {:induction false} SectionsFromSeqPointwise(ds: seq<Json>)
    ensures SectionsFromSeq(ds).Ok? <==> forall i | 0 <= i < |ds| :: SectionFromJson(ds[i]).Ok?
    ensures SectionsFromSeq(ds).Ok? ==>
              forall i | 0 <= i < |ds| :: SectionsFromSeq(ds).value[i] == SectionFromJson(ds[i]).value
  {
    if ds != [] {
      SectionsFromSeqPointwise(ds[1..]);
      if SectionFromJson(ds[0]).Ok? && SectionsFromSeq(ds[1..]).Ok? {
        var r := SectionsFromSeq(ds).value;
        assert r == [SectionFromJson(ds[0]).value] + SectionsFromSeq(ds[1..]).value;
        forall i | 0 <= i < |ds| ensures SectionFromJson(ds[i]).Ok? && r[i] == SectionFromJson(ds[i]).value {
          if i > 0 {
            assert ds[i] == ds[1..][i - 1];
          }
        }
      } else if SectionFromJson(ds[0]).Ok? {
        var j :| 0 <= j < |ds[1..]| && !SectionFromJson(ds[1..][j]).Ok?;
        assert ds[1..][j] == ds[j + 1];
      }
    }
  }

  /** `User.from_json(data)`: a User when `data` has both a `username` and a
      `name` key, otherwise None. The `in` tests follow Python, so a list or a
      string is searched (and then cannot be indexed), and a number raises. */
  function UserFromJson(data: Json): (r: Result<Option<UserId>>)
    ensures r.Ok? && r.value.Some? <==> data.JObj? && "username" in data.fields && "name" in data.fields
    ensures r.Ok? && r.value.Some? ==> r.value.value == UserId(data.fields["username"], data.fields["name"])
    ensures data.JObj? ==> r.Ok?
    ensures data.JArr? && JStr("username") !in data.items ==> r == Ok(None)
  {
    var hasUsername :- Contains(data, "username");
    if !hasUsername then Ok(None)
    else
      var hasName :- Contains(data, "name");
      if !hasName then Ok(None)
      else
        var username :- Index(data, "username");
        var name :- Index(data, "name");
        Ok(Some(UserId(username, name)))
  }
}
