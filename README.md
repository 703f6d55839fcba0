# mixcloud3 in Dafny

A model of the Python binding `mixcloud3` for the Mixcloud REST API, together with proofs about it.

The remote API is an oracle: a fixed function `server: Request -> Response` held by a `Network` object. The object also keeps a ghost log of every request sent. Each operation is stated in terms of the log it leaves, so "fetches nothing", "fetches once" and "these pages, in this order" are ordinary postconditions.

The model covers these parts of the binding:

- **Status check.** The `get`/`post` wrappers accept only status 200. Any other status raises `APIError`, whose message names the verb and the code.
- **Pagination.** `get_many` fetches one page. `get_all` is the cursor walk:
  - the first page is fetched with `limit=50`;
  - `paging.next` is followed while the page has one;
  - the `data` entries of every page are produced in order.
- **OAuth.**
  - `authorize_url` is modelled character by character: `urlencode` over `quote_plus` of UTF-8 bytes. An independent decoder shows that the query carries exactly `client_id` and `redirect_uri`.
  - `exchange_token` is modelled including its not-ok error branch.
- **Upload.** `Mixcloud.upload` builds a multipart form. It has three fixed fields, three indexed fields per section and one per tag. The attached files are `mp3` and an optional `picture`.
- **Cached cloudcast details.** A cloudcast's sections and description are resolved together by one `_load` and then kept.
- **Cached user metadata.** A user's metadata is fetched on demand and kept. The playlist listing is gated on a `playlists` entry in it.
- **`User.from_json`.** The partial decoder yields a user only when both keys are present.

JSON is a datatype. Python's `None` is `JNull`. The Python exceptions the code can raise are error values:

- `KeyError` for `d[k]` on a dict without `k`;
- `TypeError` for indexing, testing or iterating a value of the wrong shape;
- `AttributeError` for `.get` on a non-dict, or a missing client `m`;
- `APIError`, `MixcloudOauthError`.

The Python operators the binding applies to decoded JSON are `d[k]`, `k in d` (on a dict, list or str), `d.get(k)`, truth tests, iteration and `str()` in URLs. `d[k]`, `k in d`, `d.get(k)` and truth tests are modelled as Python defines them. Iteration is exact for lists, strs and empty dicts. `str()` is exact for strings, numbers, booleans and None. The two departures, iteration over a non-empty dict and `str()` of a list or dict, are listed under "## Left out".

Each cached accessor is given in two forms:

- a function of the oracle and the cached state, returning the result, the new state and the requests sent;
- a method on a `class` whose fields are the cache, proved to agree with that function.

The memoisation properties are lemmas about the functions.

Modules:

- `Decimal`: decimal numerals.
- `Values`: JSON and Python operators.
- `Http`: the transport and the status check.
- `Pagination`
- `OAuth`
- `Entities`: value entities and their decoders.
- `Client`: the root client and the upload form.
- `LazyEntities`: `Cloudcast` and `User`.
- `Uploader`: the whole of `upload`.

## Model

| member | source | states |
|---|---|---|
| Http.CheckStatus | mixcloud3/__init__.py:54-67 | The response is returned unchanged exactly when the status is 200. Otherwise the error is an APIError whose message is `API_ERROR_MESSAGE` filled with the verb and the decimal status. |
| Http.ApiErrorMessageInjective | mixcloud3/__init__.py:41 | The APIError message determines both the verb and the status code. |
| Http.Fetch | mixcloud3/__init__.py:54-59 | The body is produced exactly when the oracle answers 200. |
| Http.Get | mixcloud3/__init__.py:54-59 | Exactly one GET is sent, with the given parameters. The result is the status check of the oracle's answer. |
| Http.Post | mixcloud3/__init__.py:62-67 | Exactly one POST is sent, with the given form, parameters and files. The result is the status check of the answer. |
| Values.Chars | mixcloud3/__init__.py:95-98 | Iterating over a str visits its one-character strings, one per character, in order. |
| Pagination.PageParams | mixcloud3/__init__.py:81-87 | `limit` and `offset` are query parameters exactly when they are given, each as its decimal text. There are no other parameters. |
| Pagination.GetMany | mixcloud3/__init__.py:81-89 | Exactly one GET is sent, with those parameters. The result is the decoded page or the APIError. |
| Pagination.ContinueFuelMonotone | mixcloud3/__init__.py:96-98 | A cursor walk that ends within some bound of pages gives the same entries, requests and outcome under any larger bound. |
| Pagination.TraverseFromFuelIrrelevant | mixcloud3/__init__.py:92-98 | Any two bounds under which `get_all` ends give the same result, so `AllPages` is well defined. |
| Pagination.AllPagesAt | mixcloud3/__init__.py:92-98 | Any bound under which the walk ends gives the result of `get_all`. |
| Pagination.ChainIsAllPages | mixcloud3/__init__.py:92-98 | Take any chain of pages in which each page's `next` is answered by the following page, the last page has no `next`, and the first page is the answer to the `limit=50` request. Then `get_all` ends normally. Its entries are the concatenation of the pages' `data` in order. Its requests are the first request followed by one cursor request per later page. Empty `data` does not end the chain. |
| Pagination.AllPagesIsChain | mixcloud3/__init__.py:92-98 | Conversely, every `get_all` that ends normally is such a chain. |
| Pagination.EmptyPageContinues | mixcloud3/__init__.py:95-98 | A page with no entries but a `next` cursor still requests the next page, and the next page's entries follow. |
| Pagination.ResumeIsContinue | mixcloud3/__init__.py:92-98 | Resuming the walk from a page, after some entries were produced and some requests sent, adds exactly that page's walk: its entries after those produced, its requests after those sent, and its outcome. |
| Pagination.GetAll | mixcloud3/__init__.py:92-98 | Consumed to the end, `get_all` produces exactly `AllPages`' entries, raises exactly its error and sends exactly its requests. |
| Pagination.FollowCursors | mixcloud3/__init__.py:95-98 | The `while` loop produces the entries of the current page and every page reached from it, and sends one request per cursor followed. |
| OAuth.QuotePlus | mixcloud3/__init__.py:120 | Every character of `quote_plus`' output is a letter, a digit, one of `_.-~`, `+` or `%`. So it never contains the `&` and `=` separators of `urlencode`. |
| OAuth.UnquoteQuotePlus | mixcloud3/__init__.py:120 | Decoding `+` and `%XX` escapes (UTF-8) inverts `quote_plus` on every string. |
| OAuth.UrlEncodeRoundTrip | mixcloud3/__init__.py:120 | Splitting `urlencode`'s output on `&` and then on the first `=`, and decoding each part, gives back exactly the pairs encoded, in order. |
| OAuth.AuthorizeUrlDecodes | mixcloud3/__init__.py:111-120 | The authorize URL starts with `OAUTH_ROOT + "/authorize?"`. Its query decodes to exactly `client_id` and `redirect_uri`, in that order, each the `str()` of the setting (an unset setting reads "None"). |
| OAuth.TokenParams | mixcloud3/__init__.py:127-133 | The token request carries `code`, and carries each of `client_id`, `client_secret` and `redirect_uri` exactly when it is set. There are no other parameters. |
| OAuth.TokenFromResponse | mixcloud3/__init__.py:133-136 | The result is a MixcloudOauthError exactly when the response is not ok (status 400 to 599). Otherwise it is the body's `access_token`. |
| OAuth.ExchangeToken | mixcloud3/__init__.py:122-136 | Exactly one GET is sent to `/access_token` with those parameters. The result is `TokenFromResponse` of the answer. |
| Entities.SectionsFromSeq | mixcloud3/__init__.py:437-438 | A decoded section list has one section per entry. |
| Entities.SectionsFromSeqPointwise | mixcloud3/__init__.py:433-438 | The list decodes exactly when every entry decodes, and its i-th section is the decoding of the i-th entry. |
| Entities.UserFromJson | mixcloud3/__init__.py:233-235 | A user exists exactly when `data` is a dict with both `username` and `name`, and it is built from those two values. Any dict gives no error. A list without `"username"` gives None. |
| Client.TokenQuery | mixcloud3/__init__.py:196-197 | `access_token` is sent exactly when the client has a token. |
| Client.SectionKeyInjective | mixcloud3/__init__.py:184-187 | Two section field names are equal only for the same index and field. |
| Client.TagKeyInjective | mixcloud3/__init__.py:189-190 | Two tag field names are equal only for the same index. |
| Client.KeysByFirstLetter | mixcloud3/__init__.py:184-190 | Section field names start with `s` and tag field names with `t`, so neither clashes with a fixed field. |
| Client.KeyGroupsDisjoint | mixcloud3/__init__.py:178-190 | The fixed fields, the section fields and the tag fields are three groups that share no name. |
| Client.SectionFieldsFresh | mixcloud3/__init__.py:184-186 | The `artist`, `song` and `start_time` fields of section n differ from each other and from those of the sections before it. |
| Client.SectionKeysCount | mixcloud3/__init__.py:183-186 | n sections write exactly 3·n distinct field names. |
| Client.TagKeysCount | mixcloud3/__init__.py:188-189 | n tags write exactly n distinct field names. |
| Client.FixedKeysCount | mixcloud3/__init__.py:178-182 | The form starts with three distinct fixed fields. |
| Client.SectionKeyOutside | mixcloud3/__init__.py:184-187 | The fields of section i are not among those of the sections before it. |
| Client.TagKeyOutside | mixcloud3/__init__.py:189-190 | The field of tag i is not among those of the tags before it. |
| Client.NewSectionKeys | mixcloud3/__init__.py:184-187 | The three fields of the next section are new and pairwise distinct. |
| Client.NewTagKey | mixcloud3/__init__.py:189-190 | The field of the next tag is new. |
| Client.PayloadKeysCount | mixcloud3/__init__.py:178-190 | The form has exactly 3 + 3·sections + tags distinct field names. |
| Client.SectionStep | mixcloud3/__init__.py:184-187 | Writing section i's three fields extends a form holding the earlier sections by exactly that section. |
| Client.TagStep | mixcloud3/__init__.py:189-190 | Writing tag i's field extends the form by exactly that tag. |
| Client.BuildPayload | mixcloud3/__init__.py:178-190 | The form built by the two `enumerate` loops holds the following, and nothing else, so it has 3 + 3·sections + tags entries: `name`; `percentage_music` = 100; `description`; for every section i, `sections-i-artist` = the artist's name, `sections-i-song` = the track's name and `sections-i-start_time`; for every tag i, `tags-i-tag` = the tag's name. |
| Client.BuildFiles | mixcloud3/__init__.py:192-194 | The files always hold `mp3`, and hold `picture` exactly when a picture is given. There is nothing else. |
| Client.Upload | mixcloud3/__init__.py:176-198 | Given the resolved cloudcast fields, exactly one POST is sent to `/upload/` with that form, those files and the token parameter. The result is the status check of the answer. |
| LazyEntities.LoadSpec | mixcloud3/__init__.py:382-387 | `_load` sends one GET, or none when the client is missing. Success leaves the sections resolved. A failure leaves the description as it was. The sections are unchanged or become resolved, so a response without `description` leaves them set. |
| LazyEntities.LoadSucceeds | mixcloud3/__init__.py:382-387 | A load succeeds exactly when the GET answers 200 and its body has decodable `sections` and a `description`. It then stores exactly those two. |
| LazyEntities.SectionsSpec | mixcloud3/__init__.py:389-397 | Resolved sections are returned without a request. A request is sent exactly when the sections are None and a client is set, and at most one is sent. On success, the sections returned are the ones cached. |
| LazyEntities.DescriptionSpec | mixcloud3/__init__.py:399-406 | A non-None description is returned without a request. A request is sent exactly when it is None and a client is set, and at most one is sent. On success, the description returned is the one cached. |
| LazyEntities.SectionsMemoised | mixcloud3/__init__.py:389-397 | After a successful read of the sections, a second read sends nothing and returns the same list. |
| LazyEntities.SectionsLoadResolvesDescription | mixcloud3/__init__.py:382-406 | A load triggered by the sections also stores the response's description. A later description read sends nothing exactly when that description is not null. |
| LazyEntities.DescriptionLoadResolvesSections | mixcloud3/__init__.py:382-406 | A load triggered by the description also resolves the sections, so a later sections read sends nothing. |
| LazyEntities.DescriptionThenSectionsLoadOnce | mixcloud3/__init__.py:181-183 | Reading the description and then the sections, as `upload` does, sends at most one request in total once the first read succeeds. |
| LazyEntities.Cloudcast.constructor | mixcloud3/__init__.py:323-344 | A cloudcast holds its key, name, tags and client, and the cached sections and description it was given. |
| LazyEntities.Cloudcast.Load | mixcloud3/__init__.py:382-387 | The fields and the log change exactly as `LoadSpec` says. |
| LazyEntities.Cloudcast.Sections | mixcloud3/__init__.py:389-397 | The fields, log and result are exactly as `SectionsSpec` says. |
| LazyEntities.Cloudcast.Description | mixcloud3/__init__.py:399-406 | The fields, log and result are exactly as `DescriptionSpec` says. |
| LazyEntities.MetadataSpec | mixcloud3/__init__.py:243-247 | Truthy cached metadata is returned without a request. Otherwise one GET of `/<name>/?metadata=1` is sent when a client is set. Like the source, it uses the user's display name there, where the other per-user URLs use the key. Then `data["metadata"]["connections"]` is cached, falsy or not. A failure leaves the cache as it was. |
| LazyEntities.MetadataMemoised | mixcloud3/__init__.py:272-276 | After a read that returns truthy metadata, a second read sends nothing and returns the same value. Falsy metadata is fetched again on the next read. |
| LazyEntities.PlaylistsUrl | mixcloud3/__init__.py:267-268 | There is no listing exactly when `metadata.get("playlists")` is falsy. There is a listing URL exactly when the entry is a non-empty string, and the URL is that string. |
| LazyEntities.NoPlaylistsEntryNoListing | mixcloud3/__init__.py:266-270 | Without a truthy `playlists` entry, `playlists()` yields nothing, raises nothing and sends no request beyond the metadata fetch. |
| LazyEntities.PlaylistsFollowListing | mixcloud3/__init__.py:266-270 | With cached metadata naming a listing, `playlists()` sends exactly the listing's `get_all` requests, starting with `limit=50`. It yields exactly the listing's entries and keeps the metadata. |
| LazyEntities.User.constructor | mixcloud3/__init__.py:223-235 | A user built by `from_json` holds the key, name and client, and no metadata. |
| LazyEntities.User.Metadata | mixcloud3/__init__.py:272-276 | The field, log and result are exactly as `MetadataSpec` says. |
| LazyEntities.User.Playlists | mixcloud3/__init__.py:266-270 | The entries, error, metadata field and log are exactly as the playlist listing specification says: the metadata read, then `get_all` of the listing URL when there is one. |
| Uploader.UploadCloudcast | mixcloud3/__init__.py:176-198 | `upload` with the accessors used as the properties they are, in three steps. First the description is read, then the sections, and at most one detail load is sent between them. If a read fails, its error is returned and nothing is posted. If the tags are None (the dataclass default), `enumerate` raises a TypeError after both reads and nothing is posted. Otherwise exactly one POST follows, carrying the upload form of the resolved name, description, sections and tags, and the files. |
| Uploader.UploadAsWritten | mixcloud3/__init__.py:176-183 | `upload` as written reads the description, possibly loading it, and then raises a TypeError. Every request it sends is a GET, so no form is ever posted. |

## Left out

- Real HTTP: the `requests` calls are replaced by the oracle and the ghost log. These are not modelled:
  - transport exceptions, timeouts and retries;
  - responses whose body is not JSON;
  - floating-point JSON numbers.
- The conversion of form values to text by `requests`' multipart encoder is not modelled. The form is modelled as the dict `upload` builds: `percentage_music` is the number 100, a tag is represented by its name, and None values are kept, although the encoder drops them.
- Python's `str()` of a list or a dict formatted into a URL (a key or a user name of that shape) is a fixed stand-in text, not Python's `repr`.
- A URL taken from a response that is not a string makes `requests` raise. That exception is modelled as the single error `InvalidUrl`.
- Iterating a non-empty dict where a list is expected visits its keys in Python. Dict key order is not part of the JSON model, so this is reported as a TypeError. An empty dict iterates as empty, as in Python.
- `get_all` and `playlists` are generators. The model consumes them to the end: it returns the entries produced and the exception that stopped them, if any. An iteration abandoned early is not modelled.
- Pagination.GetAll, LazyEntities.User.Playlists: these require the cursor walk to end (`Ends`). The source loops forever on a server whose `next` cursors never run out.
- The netrc lookup in `Mixcloud.__init__` is not modelled. It is file I/O with swallowed exceptions. The client is modelled as an API root and an optional token.
- These are not part of this model: YAML loading, `setup_yaml`, `from_yml`, `upload_yml_file`, `dateutil` timestamp parsing, `slugify`, the logger and `setup.py`.
- The field-by-field constructors `Playlist.from_json`, `Cloudcast.from_json` and `Tag.from_json` are not modelled. `playlists()` yields the listing's raw JSON entries rather than `Playlist` objects. A cloudcast is built directly from its fields.
- `Mixcloud.artist`, `user`, `me`, `User.cloudcast`, `User.cloudcasts` and `User.playlist` are not modelled. Each is a single `get` (or `get_many`) of a formatted URL followed by a constructor.
- `Playlist.cloudcasts` is not modelled. It is a generator. With `all=True` it runs `get_all` on the playlist's cloudcast URL, which is the cursor walk modelled by Pagination.GetAll. Otherwise it makes one `get_many` call and iterates the page dict it returns. It then builds a `Cloudcast` from each value it visits.
- `Cloudcast.picture` is not modelled. It sends no request: it is the `large` entry of the cloudcast's `pictures` dict, and a KeyError or TypeError when that entry or dict is missing.
- LazyEntities.DescriptionSpec: a detail response whose `description` is null stores None again. Each later read of the description then loads once more. This is modelled as the source does it, and it is not claimed to be fetched at most once.

## Findings

| source | as written | input that shows it | evidently intended | confidence | as-written member | corrected member |
|---|---|---|---|---|---|---|
| mixcloud3/__init__.py:181-183 | `upload` calls `cloudcast.description()` and `cloudcast.sections()`, but both are properties. | Any cloudcast: the property yields a str (or None), and calling it raises TypeError before the POST. | Read the two properties and post the form built from their values. | high (not executed) | Uploader.UploadAsWritten | Uploader.UploadCloudcast |
