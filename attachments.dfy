/**
 * `download_slack_files`: which of a message's attached files are fetched and kept. The HTTP GET is
 * an oracle `fetch` from URL to outcome: a response with a status and a body, or an exception.
 */
module Attachments {
  import opened Wrappers

  /** A Slack file descriptor; `None` is a key the descriptor does not carry. */
  datatype SlackFile = SlackFile(urlPrivateDownload: Option<string>, urlPrivate: Option<string>,
                                 name: Option<string>, mimetype: Option<string>)

  /** What `requests.get` does for one URL. */
  datatype HttpOutcome = Response(status: int, content: seq<bv8>) | Raised(message: string)

  /** One kept file, as `download_slack_files` appends it. */
  datatype Download = Download(content: seq<bv8>, name: string, mimetype: string)

  const DefaultName := "arquivo"
  const DefaultMimeType := "application/octet-stream"

  /** Python truthiness of an optional string: present and non-empty. */
  predicate Truthy(v: Option<string>) {
    v.Some? && v.value != ""
  }

  /** `f.get("url_private_download") or f.get("url_private")`, when that is truthy. */
  function DownloadUrl(f: SlackFile): (r: Option<string>)
    ensures r.Some? <==> Truthy(f.urlPrivateDownload) || Truthy(f.urlPrivate)
    ensures r.Some? ==> r.value != ""
    ensures Truthy(f.urlPrivateDownload) ==> r == f.urlPrivateDownload
    ensures !Truthy(f.urlPrivateDownload) && Truthy(f.urlPrivate) ==> r == f.urlPrivate
  {
    if Truthy(f.urlPrivateDownload) then f.urlPrivateDownload
    else if Truthy(f.urlPrivate) then f.urlPrivate
    else None
  }

  /** The record kept for a file whose download answered `content`, with the defaults filled in. */
  function Fetched(f: SlackFile, content: seq<bv8>): Download {
    Download(content,
             match f.name case Some(n) => n case None => DefaultName,
             match f.mimetype case Some(m) => m case None => DefaultMimeType)
  }

  /** The file has a URL and its GET raised. */
  predicate Raises(f: SlackFile, fetch: string -> HttpOutcome) {
    DownloadUrl(f).Some? && fetch(DownloadUrl(f).value).Raised?
  }

  /** The file has a URL and its GET answered 200. */
  predicate Kept(f: SlackFile, fetch: string -> HttpOutcome) {
    DownloadUrl(f).Some? && fetch(DownloadUrl(f).value).Response? && fetch(DownloadUrl(f).value).status == 200
  }

  /**
   * What the loop of `download_slack_files` produces for `files`, processed front to back: the
   * first exception ends it, a missing URL or a non-200 answer skips the file.
   */
  function DownloadAll(files: seq<SlackFile>, fetch: string -> HttpOutcome): (r: Result<seq<Download>>)
    ensures r.Success? ==> |r.value| <= |files|
  {
    if files == [] then Success([])
    else
      var f := files[|files| - 1];
      match DownloadAll(files[..|files| - 1], fetch)
      case Failure(e) => Failure(e)
      case Success(done) =>
        match DownloadUrl(f)
        case None => Success(done)
        case Some(url) =>
          match fetch(url)
          case Raised(msg) => Failure(msg)
          case Response(status, content) =>
            if status == 200 then Success(done + [Fetched(f, content)]) else Success(done)
  }

  /** `download_slack_files`, as the loop the source runs. */
  method DownloadSlackFiles(files: seq<SlackFile>, fetch: string -> HttpOutcome) returns (r: Result<seq<Download>>)
    ensures r == DownloadAll(files, fetch)
  {
    var downloaded: seq<Download> := [];
    var i := 0;
    while i < |files|
      invariant 0 <= i <= |files|
      invariant DownloadAll(files[..i], fetch) == Success(downloaded)
    {
      assert files[..i + 1][..i] == files[..i];
      var url := DownloadUrl(files[i]);
      if url.None? {
        i := i + 1;
        continue;
      }
      var response := fetch(url.value);
      if response.Raised? {
        assert DownloadAll(files[..i + 1], fetch) == Failure(response.message);
        DownloadFailureSticks(files, i + 1, fetch);
        assert files[..|files|] == files;
        return Failure(response.message);
      }
      if response.status == 200 {
        downloaded := downloaded + [Fetched(files[i], response.content)];
      }
      i := i + 1;
    }
    assert files[..i] == files;
    r := Success(downloaded);
  }

  /** Once a prefix has raised, every longer prefix fails with the same message. */
  lemma {:induction false} DownloadFailureSticks(files: seq<SlackFile>, n: nat, fetch: string -> HttpOutcome)
    requires n <= |files| && DownloadAll(files[..n], fetch).Failure?
    ensures DownloadAll(files, fetch) == DownloadAll(files[..n], fetch)
    decreases |files| - n
  {
    if n < |files| {
      assert files[..n + 1][..n] == files[..n];
      DownloadFailureSticks(files, n + 1, fetch);
    } else {
      assert files[..n] == files;
    }
  }

  /** The indices of the kept files among the first `n`, in increasing order. */
  ghost function KeptIndices(files: seq<SlackFile>, fetch: string -> HttpOutcome, n: nat): (r: seq<nat>)
    requires n <= |files|
    ensures forall k :: 0 <= k < |r| ==> r[k] < n && Kept(files[r[k]], fetch)
    ensures forall k, l :: 0 <= k < l < |r| ==> r[k] < r[l]
    ensures forall i :: 0 <= i < n && Kept(files[i], fetch) ==> i in r
  {
    if n == 0 then []
    else if Kept(files[n - 1], fetch) then KeptIndices(files, fetch, n - 1) + [n - 1]
    else KeptIndices(files, fetch, n - 1)
  }

  /**
   * A download that ends normally keeps exactly the files that had a URL and answered 200, in their
   * original order, each with its body and its name and mimetype or their defaults.
   */
  lemma {:induction false} DownloadAllSelects(files: seq<SlackFile>, fetch: string -> HttpOutcome)
    requires DownloadAll(files, fetch).Success?
    ensures var d := DownloadAll(files, fetch).value;
            var idx := KeptIndices(files, fetch, |files|);
            |d| == |idx| &&
            forall k :: 0 <= k < |d| ==> d[k] == Fetched(files[idx[k]], fetch(DownloadUrl(files[idx[k]]).value).content)
  {
    if files != [] {
      var init := files[..|files| - 1];
      assert DownloadAll(init, fetch).Success?;
      DownloadAllSelects(init, fetch);
      KeptIndicesAgree(init, files, fetch, |files| - 1);
    }
  }

  /** `KeptIndices` of the first `n` files only looks at those files. */
  lemma {:induction false} KeptIndicesAgree(a: seq<SlackFile>, b: seq<SlackFile>, fetch: string -> HttpOutcome, n: nat)
    requires n <= |a| && n <= |b| && a[..n] == b[..n]
    ensures KeptIndices(a, fetch, n) == KeptIndices(b, fetch, n)
  {
    if n > 0 {
      assert a[n - 1] == a[..n][n - 1] == b[..n][n - 1] == b[n - 1];
      assert a[..n - 1] == a[..n][..n - 1] == b[..n][..n - 1] == b[..n - 1];
      KeptIndicesAgree(a, b, fetch, n - 1);
    }
  }

  /** The download fails exactly when some file with a URL raised, and then with the first such message. */
  lemma {:induction false} DownloadFailsIffRaise(files: seq<SlackFile>, fetch: string -> HttpOutcome)
    ensures DownloadAll(files, fetch).Failure? <==> exists i :: 0 <= i < |files| && Raises(files[i], fetch)
    ensures DownloadAll(files, fetch).Failure? ==>
              exists i :: 0 <= i < |files| && Raises(files[i], fetch)
                          && DownloadAll(files, fetch).error == fetch(DownloadUrl(files[i]).value).message
                          && forall j :: 0 <= j < i ==> !Raises(files[j], fetch)
  {
    if files != [] {
      var init := files[..|files| - 1];
      var last := |files| - 1;
      DownloadFailsIffRaise(init, fetch);
      assert forall j :: 0 <= j < last ==> files[j] == init[j];
    }
  }

  /**
   * A message with three attachments: one with a download URL that answers 200, one without any
   * URL, and one whose private URL answers 404. Only the first is kept, under the default name.
   */
  lemma DownloadExample(files: seq<SlackFile>, fetch: string -> HttpOutcome)
    requires files == [SlackFile(Some("u1"), Some("p1"), None, Some("application/pdf")),
                       SlackFile(None, Some(""), Some("nota.png"), None),
                       SlackFile(Some(""), Some("u3"), Some("boleto.pdf"), None)]
    requires forall u :: fetch(u) == (if u == "u1" then Response(200, [37]) else Response(404, []))
    ensures DownloadAll(files, fetch) == Success([Download([37], DefaultName, "application/pdf")])
  {
    assert files[..2][..1] == files[..1];
    assert files[..1][..0] == [];
    assert files[..3] == files;
    assert DownloadUrl(files[0]) == Some("u1");
    assert DownloadUrl(files[1]) == None;
    assert DownloadUrl(files[2]) == Some("u3");
    assert fetch("u1") == Response(200, [37]);
    assert fetch("u3") == Response(404, []);
    var kept := [Download([37], DefaultName, "application/pdf")];
    assert Fetched(files[0], [37]) == kept[0];
    var first := files[..1];
    assert |first| == 1 && first[0] == files[0] && first[..0] == [];
    assert DownloadAll(first[..0], fetch) == Success([]);
    assert DownloadAll(first, fetch) == Success([] + [Fetched(files[0], [37])]);
    assert [] + [Fetched(files[0], [37])] == kept;
    assert files[..2][1] == files[1];
    assert DownloadAll(files[..2], fetch) == Success(kept);
    assert files[..2] == files[..|files| - 1];
  }
}
