/** The report list view: the link it builds for each report's stored file. */
module ReportesViews {
  import opened Wrappers
  import opened Texto

  predicate EsUrlAbsoluta(p: string) {
    StartsWith(p, "http://") || StartsWith(p, "https://")
  }

  /**
   * build_file_url: no link for a missing or empty path; URLs and absolute
   * server paths are kept; any other path is taken as relative to the media
   * URL, joined to it by exactly one '/'.
   */
  function BuildFileUrl(mediaUrl: string, path: Option<string>): (r: Option<string>)
    ensures r.None? <==> path.None? || path.value == []
    ensures r.Some? && (EsUrlAbsoluta(path.value) || StartsWith(path.value, "/")) ==> r == path
    ensures r.Some? && !EsUrlAbsoluta(path.value) && !StartsWith(path.value, "/") ==>
              var u := r.value;
              var p := path.value;
              |u| > |p| && u[|u| - |p| - 1..] == "/" + p
              && StartsWith(mediaUrl, u[..|u| - |p| - 1])
              && (|u| == |p| + 1 || u[|u| - |p| - 2] != '/')
              && forall i :: |u| - |p| - 1 <= i < |mediaUrl| ==> mediaUrl[i] == '/'
  {
    match path
    case None => None
    case Some(p) =>
      if p == [] then None
      else if EsUrlAbsoluta(p) then Some(p)
      else if StartsWith(p, "/") then Some(p)
      else
        var base := RStrip(mediaUrl, '/');
        var u := base + "/" + p;
        assert u[..|u| - |p| - 1] == base;
        assert u[|u| - |p| - 1..] == "/" + p;
        Some(u)
  }

  /** With a media URL rooted at '/', every link is a server path, and building the link of a link changes nothing. */
  lemma BuildFileUrlIdempotente(mediaUrl: string, path: Option<string>)
    requires StartsWith(mediaUrl, "/")
    ensures BuildFileUrl(mediaUrl, path).Some? && !EsUrlAbsoluta(path.value) ==> StartsWith(BuildFileUrl(mediaUrl, path).value, "/")
    ensures BuildFileUrl(mediaUrl, BuildFileUrl(mediaUrl, path)) == BuildFileUrl(mediaUrl, path)
  {
    var r := BuildFileUrl(mediaUrl, path);
    if r.Some? && !EsUrlAbsoluta(path.value) && !StartsWith(path.value, "/") {
      var base := RStrip(mediaUrl, '/');
      if base != [] {
        assert base[0] == mediaUrl[0] == '/';
      }
      assert r.value == base + "/" + path.value;
      assert r.value[0] == '/';
    }
  }

  /** With the default media URL a relative path gets the media prefix. */
  lemma BuildFileUrlEjemplo()
    ensures BuildFileUrl("/media/", Some("reportes/r1.pdf")) == Some("/media/reportes/r1.pdf")
  {
    var p := "reportes/r1.pdf";
    assert p[0] == 'r';
    assert !EsUrlAbsoluta(p) && !StartsWith(p, "/");
    assert RStrip("/media/", '/') == "/media" by {
      assert "/media/"[..6] == "/media";
      assert RStrip("/media", '/') == "/media";
    }
    assert BuildFileUrl("/media/", Some(p)) == Some(RStrip("/media/", '/') + "/" + p);
    assert "/media" + "/" + p == "/media/reportes/r1.pdf";
  }
}
