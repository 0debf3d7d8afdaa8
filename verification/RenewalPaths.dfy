/** Which certificate files the renewal service takes for its own. */
module RenewalPaths {
  import opened Common
  import opened Config
  import opened PathSegments
  import opened RouterBuild
  import opened Segments
  import opened TlsMaterial

  /** Exactly the files below the cache directory; without one, all. */
  lemma ManagedBySegments(identity: TlsIdentity, cacheDir: string)
    ensures Managed(identity, cacheDir)
       <==> identity.cert.Path? && (cacheDir == "" || Closed(Split('/', cacheDir)) <= Split('/', identity.cert.path))
  {
    if identity.cert.Path? { BelowBySegments(cacheDir, identity.cert.path); }
  }

  lemma {:induction false} TrimmedBegins(s: string)
    ensures var t := TrimSlashes(s); t <= s && (|t| < |s| ==> s[|t|] == '/')
    ensures s != [] ==> (s[|s| - 1] == '/' <==> |TrimSlashes(s)| < |s|)
  {
    if s != [] && s[|s| - 1] == '/' {
      TrimmedBegins(s[..|s| - 1]);
    }
  }

  /** A relative name joined to a directory is the directory with a slash, or below it. */
  lemma JoinedIsBelow(dir: string, name: string, file: string)
    requires dir != "" && (name == [] || name[0] != '/') && file != [] && file[0] != '/'
    ensures TrimSlashes(dir) + "/" <= JoinPath(JoinPath(dir, name), file)
  {
    TrimmedBegins(dir);
    var t, home := TrimSlashes(dir), JoinPath(dir, name);
    assert |t| < |home| && home[|t|] == '/' && t <= home;
    assert home <= JoinPath(home, file);
  }

  /** The directory both sides take the issued certificates to be in. */
  function CacheDir(letsEncrypt: Option<LetsEncrypt>): string {
    if letsEncrypt.Some? && letsEncrypt.value.cacheDir.Some? then letsEncrypt.value.cacheDir.value
    else "/var/lib/ngxora/certs"
  }

  /**
    * A block that asks for an issued certificate uses a file the service renews exactly when its name is not an
    * absolute path, or one that leads below the cache directory all the same.
    */
  lemma IssuedIsManaged<L>(s: Server<L>, letsEncrypt: Option<LetsEncrypt>)
    requires s.provider == Some(Provider.Issued) && |s.names| == 1
    ensures var identity, dir := IdentityOf(s, letsEncrypt), CacheDir(letsEncrypt);
            && identity.Some? && identity.value.cert.Path?
            && (Managed(identity.value, dir) <==>
                || s.names[0] == "" || s.names[0][0] != '/' || dir == ""
                || Closed(Split('/', dir)) <= Split('/', identity.value.cert.path))
  {
    var identity, dir := IdentityOf(s, letsEncrypt).value, CacheDir(letsEncrypt);
    ManagedBySegments(identity, dir);
    if dir != "" && (s.names[0] == "" || s.names[0][0] != '/') {
      JoinedIsBelow(dir, s.names[0], "fullchain.pem");
    }
  }

  /** Such a name: the certificate of `/tmp` is expected outside, where nobody issues it. */
  lemma AbsoluteNameIsUnmanaged<L>(s: Server<L>)
    requires s.provider == Some(Provider.Issued) && s.names == ["/tmp"]
    ensures IdentityOf(s, None).Some? && !Managed(IdentityOf(s, None).value, CacheDir(None))
  {
    var path := IdentityOf(s, None).value.cert.path;
    assert path[..2] == "/t";
    assert CacheDir(None)[1] == 'v' && TrimSlashes(CacheDir(None)) == CacheDir(None);
  }
}
