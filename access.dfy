/**
 * The pure part of the engine: the domain the IDE runs on, the hostname part
 * of the snapshot's `host`, the preview-permission predicate and the two
 * getters the plugin exposes over the snapshot.
 */
module Access {
  import opened Values

  predicate StartsWith(s: string, prefix: string) {
    |prefix| <= |s| && s[..|prefix|] == prefix
  }

  /** `s.endsWith(suffix)`. */
  predicate EndsWith(s: string, suffix: string) {
    |suffix| <= |s| && s[|s| - |suffix|..] == suffix
  }

  /** EndsWith agrees with the plain definition of a suffix. */
  lemma EndsWithIffSuffix(s: string, suffix: string)
    ensures EndsWith(s, suffix) <==> exists p: string :: s == p + suffix
  {
    if EndsWith(s, suffix) {
      var p := s[..|s| - |suffix|];
      assert s == p + suffix;
    }
    if exists p: string :: s == p + suffix {
      var p: string :| s == p + suffix;
      assert s[|s| - |suffix|..] == suffix;
    }
  }

  /**
   * The domain the IDE is served from: `hostname.substring(4)` when the
   * hostname's first three characters are "ide", the hostname otherwise.
   * JavaScript's substring past the end gives "", so "ide" alone becomes "".
   */
  function StripDomain(hostname: string): (d: string)
    ensures EndsWith(hostname, d)
    ensures !StartsWith(hostname, "ide") ==> d == hostname
    ensures StartsWith(hostname, "ide") ==>
              if |hostname| == 3 then d == "" else |d| == |hostname| - 4
  {
    if StartsWith(hostname, "ide") then
      (if |hostname| >= 4 then hostname[4..] else "")
    else
      hostname
  }

  /** The documented example, and the fourth character being dropped whatever it is. */
  lemma StripDomainExamples()
    ensures StripDomain("ide.cs50.io") == "cs50.io"
    ensures StripDomain("cs50.io") == "cs50.io"
    ensures StripDomain("idea.example.com") == ".example.com"
  {
    assert "ide.cs50.io"[..3] == "ide";
    assert "idea.example.com"[..3] == "ide";
    assert "cs50.io"[..3] != "ide" by { assert "cs50.io"[0] == 'c'; }
  }

  /**
   * `host.split(":", 1)[0]`: the longest prefix of `host` without a colon,
   * i.e. the hostname with any `:port` removed.
   */
  function HostPart(host: string): (h: string)
    ensures |h| <= |host| && h == host[..|h|]
    ensures ':' !in h
    ensures |h| < |host| ==> host[|h|] == ':'
    decreases |host|
  {
    if |host| == 0 || host[0] == ':' then "" else [host[0]] + HostPart(host[1..])
  }

  /** A port suffix does not change the hostname part. */
  lemma {:induction false} HostPartIgnoresPort(name: string, port: string)
    requires ':' !in name
    ensures HostPart(name + ":" + port) == name
    ensures HostPart(name) == name
  {
    if name != [] {
      assert name[0] != ':' && name[0] in name;
      assert (name + ":" + port)[1..] == name[1..] + ":" + port;
      HostPartIgnoresPort(name[1..], port);
    }
  }

  /** The text `endsWith` compares against: JavaScript turns a null domain into "null". */
  function DomainText(domain: Option<string>): string {
    if domain.Some? then domain.value else "null"
  }

  /** The snapshot is present and its `host` is a string. */
  predicate HasStringHost(stats: Option<Stats>) {
    stats.Some? && stats.value.host.Some? && stats.value.host.value.HostString?
  }

  /**
   * `canPreview`: may this client preview the served content? Always outside
   * hosted mode and for public projects; otherwise only when the snapshot's
   * hostname ends with the IDE's domain, or, on "c9.io", with "c9users.io".
   */
  function CanPreview(hosted: bool, isPublic: bool, stats: Option<Stats>, domain: Option<string>): (b: bool)
    ensures !hosted || isPublic ==> b
    ensures hosted && !isPublic && !HasStringHost(stats) ==> !b
    ensures b && hosted && !isPublic ==>
              EndsWith(HostPart(stats.value.host.value.s), DomainText(domain))
              || (domain == Some("c9.io") && EndsWith(HostPart(stats.value.host.value.s), "c9users.io"))
  {
    if !hosted then true
    else if isPublic then true
    else if !HasStringHost(stats) then false
    else
      var h := HostPart(stats.value.host.value.s);
      (domain == Some("c9.io") && EndsWith(h, "c9users.io")) || EndsWith(h, DomainText(domain))
  }

  /**
   * In hosted mode for a private project whose snapshot host is a colon-free
   * name, possibly with a port, the decision is the suffix check on that name.
   */
  lemma CanPreviewPrivateHost(stats: Stats, name: string, port: Option<string>, d: string)
    requires stats.host == Some(HostString(if port.Some? then name + ":" + port.value else name))
    requires ':' !in name
    ensures CanPreview(true, false, Some(stats), Some(d)) ==
              ((d == "c9.io" && EndsWith(name, "c9users.io")) || EndsWith(name, d))
  {
    HostPartIgnoresPort(name, if port.Some? then port.value else "");
    assert HasStringHost(Some(stats));
    assert HostPart(stats.host.value.s) == name;
  }

  /**
   * In hosted mode for a private project, preview is granted exactly when
   * the snapshot's hostname, port removed, is something followed by the
   * domain (or by "c9users.io" on "c9.io").
   */
  lemma CanPreviewIsSuffixTrust(stats: Stats, name: string, port: Option<string>, d: string)
    requires stats.host == Some(HostString(if port.Some? then name + ":" + port.value else name))
    requires ':' !in name
    ensures CanPreview(true, false, Some(stats), Some(d)) <==>
              (exists p: string :: name == p + d)
              || (d == "c9.io" && exists p: string :: name == p + "c9users.io")
  {
    CanPreviewPrivateHost(stats, name, port, d);
    EndsWithIffSuffix(name, d);
    EndsWithIffSuffix(name, "c9users.io");
  }

  /** A subdomain of the IDE's domain may be previewed, with or without a port. */
  lemma CanPreviewSubdomain(st: Stats)
    ensures CanPreview(true, false, Some(st.(host := Some(HostString("sub.example.io")))), Some("example.io"))
    ensures CanPreview(true, false, Some(st.(host := Some(HostString("sub.example.io" + ":" + "8080")))), Some("example.io"))
  {
    var name := "sub.example.io";
    CanPreviewPrivateHost(st.(host := Some(HostString(name))), name, None, "example.io");
    CanPreviewPrivateHost(st.(host := Some(HostString(name + ":" + "8080"))), name, Some("8080"), "example.io");
    assert name[4..] == "example.io";
    assert EndsWith(name, "example.io");
  }

  /** A host that merely contains the domain is not trusted. */
  lemma CanPreviewRejectsLookalike(st: Stats)
    ensures !CanPreview(true, false, Some(st.(host := Some(HostString("example.io.evil.com")))), Some("example.io"))
  {
    var name := "example.io.evil.com";
    CanPreviewPrivateHost(st.(host := Some(HostString(name))), name, None, "example.io");
    assert name[|name| - 10..][0] == 'o';
    assert !EndsWith(name, "example.io");
    assert "example.io" != "c9.io" by { assert |"example.io"| != |"c9.io"|; }
  }

  /** On "c9.io", hosts under "c9users.io" are trusted. */
  lemma CanPreviewC9Users(st: Stats)
    ensures CanPreview(true, false, Some(st.(host := Some(HostString("foo.c9users.io")))), Some("c9.io"))
  {
    var name := "foo.c9users.io";
    CanPreviewPrivateHost(st.(host := Some(HostString(name))), name, None, "c9.io");
    assert name[4..] == "c9users.io";
    assert EndsWith(name, "c9users.io");
  }

  /** The `host` getter: the snapshot's `host` value when the key is there, null otherwise. */
  function Host(stats: Option<Stats>): (h: Option<HostValue>)
    ensures HasLoaded(stats) ==> h == stats.value.host
    ensures !HasLoaded(stats) ==> h == None
  {
    if stats.Some? && stats.value.host.Some? then stats.value.host else None
  }

  /** The `hasLoaded` getter: a snapshot has been parsed; before that `host` is null. */
  predicate HasLoaded(stats: Option<Stats>): (b: bool)
    ensures b <==> stats != None
  {
    stats.Some?
  }
}
