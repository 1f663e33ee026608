/** The upload of an encrypted file: up to three attempts over an arbitrary stream of responses. */
module CdnUpload {
  import opened Text
  import opened MediaCipher

  const MAX_RETRIES := 3

  /** What one attempt met: the request could not be built, the server was not reached, the body could
      not be read, or it answered with a status and the download parameter (empty when missing). */
  datatype Attempt = Unbuildable | Unreachable | Unreadable | Answered(status: int, downloadParam: string)

  /** What is worth another attempt: no answer, an answer that could not be read, a status that is neither
      success nor the client's fault, or a success that names no parameter. */
  predicate WorthAnother(a: Attempt) {
    match a
    case Unbuildable => false
    case Unreachable => true
    case Unreadable => true
    case Answered(status, param) => !(400 <= status < 500) && (status != 200 || param == "")
  }

  /** One of the first three attempts is a success with this parameter, and all before it asked for another. */
  ghost predicate Accepted(attempts: nat -> Attempt, downloadParam: string) {
    && downloadParam != ""
    && exists n: nat | n < 3 && attempts(n) == Answered(200, downloadParam) ::
         forall i: nat | i < n :: WorthAnother(attempts(i))
  }

  /** At most three attempts are made; the upload succeeds with a parameter exactly when one of them is accepted
      with it, and stops at the first attempt that is not worth another. */
  method UploadBuffer(attempts: nat -> Attempt) returns (r: Result<string>, tries: nat)
    ensures forall p :: r == Ok(p) <==> Accepted(attempts, p)
    ensures 1 <= tries <= 3 && forall i: nat | i < tries - 1 :: WorthAnother(attempts(i))
    ensures tries < 3 ==> !WorthAnother(attempts(tries - 1))
  {
    tries := 0;
    while tries < MAX_RETRIES
      invariant 0 <= tries <= MAX_RETRIES
      invariant forall i: nat | i < tries :: WorthAnother(attempts(i))
    {
      var a := attempts(tries);
      tries := tries + 1;
      match a {
        case Unbuildable =>
          StopsAt(attempts, tries - 1);
          return Err, tries;
        case Unreachable =>
        case Unreadable =>
        case Answered(status, param) =>
          if 400 <= status < 500 {
            StopsAt(attempts, tries - 1);
            return Err, tries;
          }
          if status == 200 && param != "" {
            StopsAt(attempts, tries - 1);
            return Ok(param), tries;
          }
      }
    }
    r := Err;
  }

  /** An attempt that is not worth another decides. */
  lemma StopsAt(attempts: nat -> Attempt, n: nat)
    requires n < 3 && !WorthAnother(attempts(n)) && forall i: nat | i < n :: WorthAnother(attempts(i))
    ensures forall p :: Accepted(attempts, p) <==> p != "" && attempts(n) == Answered(200, p)
  {
    forall p, m: nat
      | m < 3 && attempts(m) == Answered(200, p) && p != "" && forall i: nat | i < m :: WorthAnother(attempts(i))
      ensures m == n
    {
    }
  }

  /** Where the file goes: the URL the gateway gave in full, or one made from its upload parameter; None when
      there is neither, or no server to send it to. */
  function UploadURL(fullURL: string, param: string, cdnBase: string, filekey: string, escape: string -> string)
    : (r: Option<string>)
  {
    var base := TrimSpace(cdnBase);
    var root := if HasSuffix(base, "/") then base[..|base| - 1] else base;
    if !Blank(fullURL) then Some(TrimSpace(fullURL))
    else if Blank(param) || root == "" then None
    else Some(root + "/upload?encrypted_query_param=" + escape(TrimSpace(param)) + "&filekey=" + escape(filekey))
  }

  /** The URL in plain terms. */
  lemma UploadURLIs(fullURL: string, param: string, cdnBase: string, filekey: string, escape: string -> string)
    ensures var r := UploadURL(fullURL, param, cdnBase, filekey, escape);
      var query := "/upload?encrypted_query_param=" + escape(TrimSpace(param)) + "&filekey=" + escape(filekey);
      && (TrimSpace(fullURL) != "" ==> r == Some(TrimSpace(fullURL)))
      && (TrimSpace(fullURL) == "" && TrimSpace(param) == "" ==> r == None)
      && (TrimSpace(fullURL) == "" && TrimSpace(param) != "" ==>
            forall base | base != "" && base[|base| - 1] != '/' ::
              (TrimSpace(cdnBase) == base || TrimSpace(cdnBase) == base + "/") ==> r == Some(base + query))
      && (TrimSpace(fullURL) == "" && TrimSpace(cdnBase) in {"", "/"} ==> r == None)
  {
    hide TrimSpace;
    var query := "/upload?encrypted_query_param=" + escape(TrimSpace(param)) + "&filekey=" + escape(filekey);
    forall base
      | base != "" && base[|base| - 1] != '/' && (TrimSpace(cdnBase) == base || TrimSpace(cdnBase) == base + "/")
      ensures TrimSpace(fullURL) == "" && TrimSpace(param) != "" ==>
        UploadURL(fullURL, param, cdnBase, filekey, escape) == Some(base + query)
    {
      assert !HasSuffix(base, "/") by { assert base[|base| - 1..|base|] == [base[|base| - 1]]; }
      assert HasSuffix(base + "/", "/") && (base + "/")[..|base|] == base;
      assert base + query
        == base + "/upload?encrypted_query_param=" + escape(TrimSpace(param)) + "&filekey=" + escape(filekey);
    }
    assert !HasSuffix("", "/") && HasSuffix("/", "/");
  }

  /** The whole upload.  `post(url, data)(n)` is what the n-th attempt to post these bytes there meets.  It
      succeeds exactly when the key is accepted, there is a URL, and one of the first three posts of the
      encrypted file is accepted, all before it asking for another. */
  method UploadBufferToCdn(c: BlockCipher, buf: bytes, fullURL: string, param: string, cdnBase: string, filekey: string,
                           key: bytes, escape: string -> string, post: (string, bytes) -> (nat -> Attempt))
    returns (r: Result<string>)
    requires c.Invertible()
    ensures var url, data := UploadURL(fullURL, param, cdnBase, filekey, escape), Encrypt(c, key, buf);
      forall p :: r == Ok(p) <==> data.Ok? && url.Some? && Accepted(post(url.value, data.value), p)
  {
    hide TrimSpace, HasSuffix, Encrypt, Accepted;
    var data := EncryptAesEcb(c, key, buf);
    if data.Err? { return Err; }
    var url: string;
    if TrimSpace(fullURL) != "" {
      url := TrimSpace(fullURL);
    } else if TrimSpace(param) != "" {
      var base := TrimSpace(cdnBase);
      if base == "" {
        EmptyBase();
        return Err;
      }
      var root := if HasSuffix(base, "/") then base[..|base| - 1] else base;
      if root == "" { return Err; }
      url := root + "/upload?encrypted_query_param=" + escape(TrimSpace(param)) + "&filekey=" + escape(filekey);
    } else {
      return Err;
    }
    assert UploadURL(fullURL, param, cdnBase, filekey, escape) == Some(url);
    hide UploadURL;
    var tries;
    r, tries := UploadBuffer(post(url, data.value));
  }

  lemma EmptyBase()
    ensures !HasSuffix("", "/")
  {
  }
}
