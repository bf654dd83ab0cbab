/** Two helpers of the Electron main process (src-electron/electron-main.js):
    the shell:openExternal allowlist and the tray's formatDuration. The URL
    parser is outside the model: a URL arrives already split into its
    protocol and hostname, or as the message the parser threw. */
module ElectronShell {
  import opened Wrappers
  import opened Text

  const AllowedExternalDomains: seq<string> := ["app.suisse-notes.ch", "suisse-notes.ch", "suisse-ai.ch"]

  /** What `new URL(url)` gives: the parts read here, or a thrown error. */
  datatype ParsedUrl = Url(protocol: string, hostname: string) | Unparsable(message: string)

  /** The hostname is an allowed domain or one of its subdomains. */
  predicate IsAllowedHost(hostname: string)
  {
    exists k :: 0 <= k < |AllowedExternalDomains|
      && (hostname == AllowedExternalDomains[k] || EndsWith(hostname, "." + AllowedExternalDomains[k]))
  }

  datatype OpenResult = OpenResult(success: bool, launched: bool, error: Option<string>)

  /** shell:openExternal: mailto links open; otherwise only https URLs on an
      allowed host. `launched` tells whether the shell was asked to open it;
      `launch` is the message the awaited `shell.openExternal` rejects with,
      `None` when it resolves. */
  function OpenExternal(url: ParsedUrl, launch: Option<string>): (r: OpenResult)
    ensures r.launched <==> url.Url? && (url.protocol == "mailto:" || (url.protocol == "https:" && IsAllowedHost(url.hostname)))
    ensures r.success <==> r.launched && launch.None?
    ensures url.Url? && url.protocol != "mailto:" && url.protocol != "https:" ==> r.error == Some("Only HTTPS URLs are allowed")
    ensures url.Url? && url.protocol == "https:" && !IsAllowedHost(url.hostname) ==> r.error == Some("Domain not allowed")
    ensures r.launched && launch.Some? ==> r.error == launch
    ensures r.success ==> r.error.None?
  {
    match url
    case Unparsable(message) => OpenResult(false, false, Some(message))
    case Url(protocol, hostname) =>
      if protocol == "mailto:" then Launched(launch)
      else if protocol != "https:" then OpenResult(false, false, Some("Only HTTPS URLs are allowed"))
      else if !IsAllowedHost(hostname) then OpenResult(false, false, Some("Domain not allowed"))
      else Launched(launch)
  }

  /** The reply once the shell was asked: success, or the rejection's
      message. */
  function Launched(launch: Option<string>): OpenResult
  {
    OpenResult(launch.None?, true, launch)
  }

  /** A real subdomain and an allowed name itself are accepted. */
  lemma AllowlistAccepts()
    ensures IsAllowedHost("www.suisse-notes.ch")
    ensures IsAllowedHost("suisse-ai.ch")
  {
    assert EndsWith("www.suisse-notes.ch", "." + AllowedExternalDomains[1]);
    assert AllowedExternalDomains[2] == "suisse-ai.ch";
  }

  /** A host that merely ends in an allowed name, without the dot in front,
      is refused. */
  lemma AllowlistRefusesLookalike()
    ensures !IsAllowedHost("evilsuisse-notes.ch")
  {
    var h := "evilsuisse-notes.ch";
    LookalikeChars();
    DomainChars();
    forall k | 0 <= k < |AllowedExternalDomains|
      ensures h != AllowedExternalDomains[k] && !EndsWith(h, "." + AllowedExternalDomains[k])
    {
      var p := "." + AllowedExternalDomains[k];
      assert p[0] == '.';
      if k > 0 {
        MismatchAt(h, p, 0);
      }
    }
  }

  lemma LookalikeChars()
    ensures var h := "evilsuisse-notes.ch"; |h| == 19 && h[0] == 'e' && h[3] == 'l' && h[6] == 'i'
  {
  }

  lemma DomainChars()
    ensures |AllowedExternalDomains| == 3
    ensures |AllowedExternalDomains[0]| == 19 && AllowedExternalDomains[0][0] == 'a'
    ensures |AllowedExternalDomains[1]| == 15 && |AllowedExternalDomains[2]| == 12
  {
  }

  /** A string whose character at some position of the would-be suffix
      differs from it does not end with it. */
  lemma MismatchAt(s: string, p: string, i: nat)
    requires i < |p| <= |s| && s[|s| - |p| + i] != p[i]
    ensures !EndsWith(s, p)
  {
    assert s[|s| - |p|..][i] == s[|s| - |p| + i];
  }

  /** A host that only starts with an allowed name is refused. */
  lemma AllowlistRefusesPrefix()
    ensures !IsAllowedHost("suisse-notes.ch.evil.com")
  {
    var h := "suisse-notes.ch.evil.com";
    forall k | 0 <= k < |AllowedExternalDomains|
      ensures h != AllowedExternalDomains[k] && !EndsWith(h, "." + AllowedExternalDomains[k])
    {
      var p := "." + AllowedExternalDomains[k];
      assert p[|p| - 1] == 'h';
      assert h[|h| - 1] == 'm';
    }
  }

  /** An accepted https URL's host ends in one of the allowed names, at a
      label boundary. */
  lemma AcceptedHostIsAllowed(url: ParsedUrl, launch: Option<string>)
    requires OpenExternal(url, launch).launched && url.Url? && url.protocol != "mailto:"
    ensures url.protocol == "https:"
    ensures exists k :: (0 <= k < |AllowedExternalDomains| && EndsWith(url.hostname, AllowedExternalDomains[k])
      && (url.hostname == AllowedExternalDomains[k]
          || url.hostname[|url.hostname| - |AllowedExternalDomains[k]| - 1] == '.'))
  {
    var h := url.hostname;
    var k :| 0 <= k < |AllowedExternalDomains| && (h == AllowedExternalDomains[k] || EndsWith(h, "." + AllowedExternalDomains[k]));
    if h != AllowedExternalDomains[k] {
      DottedSuffix(h, AllowedExternalDomains[k]);
    }
  }

  /** A string ending in `"." + d` ends in `d`, with the dot just before it. */
  lemma DottedSuffix(h: string, d: string)
    requires EndsWith(h, "." + d)
    ensures EndsWith(h, d) && h[|h| - |d| - 1] == '.'
  {
    assert h[|h| - |d| - 1..] == "." + d;
    assert h[|h| - |d|..] == (h[|h| - |d| - 1..])[1..];
  }

  /** formatDuration of the recording tray: `H:MM:SS` from one hour on and
      `M:SS` below, either reading back as the seconds. */
  function FormatDuration(seconds: nat): (r: string)
    ensures seconds >= 3600 ==>
      (|r| >= 7 && r[|r| - 6] == ':' && r[|r| - 3] == ':'
       && FromRadix(r[|r| - 5..|r| - 3], 10) < 60 && FromRadix(r[|r| - 2..], 10) < 60
       && 3600 * FromRadix(r[..|r| - 6], 10) + 60 * FromRadix(r[|r| - 5..|r| - 3], 10) + FromRadix(r[|r| - 2..], 10) == seconds)
    ensures seconds < 3600 ==>
      (|r| >= 4 && r[|r| - 3] == ':' && FromRadix(r[|r| - 2..], 10) < 60
       && 60 * FromRadix(r[..|r| - 3], 10) + FromRadix(r[|r| - 2..], 10) == seconds)
  {
    if seconds >= 3600 then
      CompactHoursRoundTrip(seconds);
      CompactDuration(seconds)
    else
      CompactMinutesRoundTrip(seconds);
      CompactDuration(seconds)
  }
}
