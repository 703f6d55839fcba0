/** `Mixcloud.upload` as a whole: the cloudcast's description and then its
    sections are read through their cached accessors, which may load the
    details once; `enumerate` over the tags raises a TypeError when they are
    None; otherwise the upload form is posted. */
module Uploader {
  import opened Values
  import opened Http
  import opened Entities
  import opened Client
  import opened LazyEntities

  method UploadCloudcast(net: Network, m: Mixcloud, c: Cloudcast, mp3: FileRef, picture: Option<FileRef>)
    returns (r: Result<Response>)
    modifies net, c
    ensures var d := DescriptionSpec(net.server, c.client, c.key, old(c.Cached()));
            var s := SectionsSpec(net.server, c.client, c.key, d.state);
            if d.result.Err? then
              r == Err(d.result.error) && c.Cached() == d.state && net.log == old(net.log) + d.requests
            else if s.result.Err? then
              r == Err(s.result.error) && c.Cached() == s.state &&
              net.log == old(net.log) + d.requests + s.requests
            else if c.tags.None? then
              r == Err(TypeError) && c.Cached() == s.state &&
              net.log == old(net.log) + d.requests + s.requests
            else
              c.Cached() == s.state &&
              var before := old(net.log) + d.requests + s.requests;
              |before| <= |old(net.log)| + 1 &&
              |net.log| == |before| + 1 && net.log[..|before|] == before &&
              var req := net.log[|before|];
              req.verb == POST && req.url == m.apiRoot + "/upload/" &&
              req.params == TokenQuery(m.accessToken) &&
              IsUploadPayload(req.form, c.name, d.result.value, s.result.value, c.tags.value) &&
              IsUploadFiles(req.files, mp3, picture) &&
              r == CheckStatus(POST, net.server(req))
  {
    var description := c.Description(net);
    if description.Err? {
      return Err(description.error);
    }
    var sections := c.Sections(net);
    if sections.Err? {
      return Err(sections.error);
    }
    if c.tags.None? {
      return Err(TypeError);
    }
    DescriptionThenSectionsLoadOnce(net.server, c.client, c.key, old(c.Cached()));
    r := Upload(net, m, c.name, description.value, sections.value, c.tags.value, mp3, picture);
  }

  /** `upload` as written: `cloudcast.description` is a property, so the
      access already yields the description (loading it if need be) and the
      call `description()` that follows applies a str (or None) to no
      arguments, which raises a TypeError. No form is ever posted. */
  method UploadAsWritten(net: Network, m: Mixcloud, c: Cloudcast, mp3: FileRef, picture: Option<FileRef>)
    returns (r: Result<Response>)
    modifies net, c
    ensures var d := DescriptionSpec(net.server, c.client, c.key, old(c.Cached()));
            r == (if d.result.Err? then Err(d.result.error) else Err(TypeError)) &&
            c.Cached() == d.state && net.log == old(net.log) + d.requests
    ensures forall i | |old(net.log)| <= i < |net.log| :: net.log[i].verb == GET
  {
    var description := c.Description(net);
    if description.Err? {
      return Err(description.error);
    }
    return Err(TypeError);
  }
}
