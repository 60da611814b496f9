/** The API's CORS origin rule and its error handler. The environment (`NODE_ENV`,
    `ALLOWED_ORIGINS`) is a parameter, and so is the URL parser: `hostOf(u)` is the
    hostname `new URL(u)` gives, or `None` when the constructor throws. */
module Cors {
  import opened Wrappers
  import opened Text
  import opened JsonValues

  /** What the origin callback answers. */
  datatype Verdict = Allow | Deny(message: string)

  const NotAllowed: string := "Not allowed by CORS"

  // ---------------------------------------------------------------------------------------
  // The configured origins

  /** `parts.map(o => o.trim()).filter(Boolean)`. */
  function Cleaned(parts: seq<string>): (list: seq<string>)
    ensures forall k :: 0 <= k < |list| ==> list[k] != ""
  {
    if parts == [] then []
    else
      var t := Trim(parts[0], JsWhitespace);
      if t == "" then Cleaned(parts[1..]) else [t] + Cleaned(parts[1..])
  }

  /** The cleaned list holds exactly the non-blank trimmed parts. */
  lemma {:induction false} CleanedMembers(parts: seq<string>, x: string)
    ensures x in Cleaned(parts) <==>
            x != "" && exists j :: 0 <= j < |parts| && Trim(parts[j], JsWhitespace) == x
  {
    if parts != [] {
      var t := Trim(parts[0], JsWhitespace);
      var rest := parts[1..];
      CleanedMembers(rest, x);
      assert Cleaned(parts) == if t == "" then Cleaned(rest) else [t] + Cleaned(rest);
      if x in Cleaned(parts) {
        if x in Cleaned(rest) {
          var j :| 0 <= j < |rest| && Trim(rest[j], JsWhitespace) == x;
          assert parts[j + 1] == rest[j];
        } else {
          assert Trim(parts[0], JsWhitespace) == x;
        }
      }
      if x != "" && exists j :: 0 <= j < |parts| && Trim(parts[j], JsWhitespace) == x {
        var j :| 0 <= j < |parts| && Trim(parts[j], JsWhitespace) == x;
        if j > 0 {
          assert rest[j - 1] == parts[j];
          assert x in Cleaned(rest);
        }
      }
    }
  }

  /** `ALLOWED_ORIGINS?.split(',').map(trim).filter(Boolean) || []`: an unset variable
      gives no origins. */
  function AllowedOrigins(setting: Option<string>): (list: seq<string>)
    ensures setting.None? ==> list == []
    ensures setting.Some? ==> list == Cleaned(Split(setting.value, ','))
  {
    if setting.None? then [] else Cleaned(Split(setting.value, ','))
  }

  /** An entry of `ALLOWED_ORIGINS` is allowed verbatim once trimmed. */
  lemma ConfiguredOriginListed(setting: string, parts: seq<string>, entry: string, suffix: seq<string>)
    requires Split(setting, ',') == parts + [entry] + suffix
    requires Trim(entry, JsWhitespace) != ""
    ensures Trim(entry, JsWhitespace) in AllowedOrigins(Some(setting))
  {
    CleanedMembers(Split(setting, ','), Trim(entry, JsWhitespace));
    assert Split(setting, ',')[|parts|] == entry;
  }

  // ---------------------------------------------------------------------------------------
  // Vercel project keys

  /** `originHost.includes('.vercel.app') || originHost.includes('.vercel.com')`. */
  predicate VercelHost(host: string) {
    Contains(host, ".vercel.app") || Contains(host, ".vercel.com")
  }

  /** The host ends in `.vercel.app` or `.vercel.com`: it is on a Vercel domain, not merely
      a name that contains one. */
  predicate OnVercel(host: string) {
    EndsWith(host, ".vercel.app") || EndsWith(host, ".vercel.com")
  }

  predicate EndsWith(s: string, suffix: string) {
    |suffix| <= |s| && s[|s| - |suffix|..] == suffix
  }

  /** A host on a Vercel domain passes the written substring test. */
  lemma OnVercelIsVercelHost(host: string)
    ensures OnVercel(host) ==> VercelHost(host)
  {
    if EndsWith(host, ".vercel.app") {
      ContainsAt(host, ".vercel.app", |host| - 11);
    } else if EndsWith(host, ".vercel.com") {
      ContainsAt(host, ".vercel.com", |host| - 11);
    }
  }

  /** `host.split('.')[0]`. */
  function FirstLabel(host: string): string {
    Split(host, '.')[0]
  }

  /** The dash-separated segments of the first label, without the last three:
      `split('-').slice(0, -3)`. */
  function KeySegments(host: string): (segs: seq<string>)
    ensures |Split(FirstLabel(host), '-')| <= 3 ==> segs == []
    ensures |Split(FirstLabel(host), '-')| > 3 ==> |segs| == |Split(FirstLabel(host), '-')| - 3
  {
    var parts := Split(FirstLabel(host), '-');
    if |parts| <= 3 then [] else parts[..|parts| - 3]
  }

  /** The project key, `KeySegments(host).join('-')`. */
  function ProjectKey(host: string): string {
    Join(KeySegments(host), '-')
  }

  /** A first label of three or fewer dash-separated segments has the empty key. */
  lemma ShortLabelEmptyKey(host: string)
    requires |Split(FirstLabel(host), '-')| <= 3
    ensures ProjectKey(host) == ""
  {
  }

  /** Joining the first `k` parts gives a prefix of joining them all. */
  lemma {:induction false} JoinPrefix(parts: seq<string>, k: nat, c: char)
    requires k <= |parts|
    ensures Join(parts[..k], c) <= Join(parts, c)
    decreases k
  {
    if k > 0 && |parts| > 1 {
      if k == 1 {
        assert parts[..1] == [parts[0]];
      } else {
        JoinPrefix(parts[1..], k - 1, c);
        assert parts[..k][1..] == parts[1..][..k - 1];
      }
    }
  }

  /** The project key is a prefix of the hostname's first label. */
  lemma KeyIsLabelPrefix(host: string)
    ensures ProjectKey(host) <= FirstLabel(host)
  {
    var parts := Split(FirstLabel(host), '-');
    JoinSplit(FirstLabel(host), '-');
    if |parts| > 3 {
      JoinPrefix(parts, |parts| - 3, '-');
    }
  }

  /** `allowedOrigins.some(...)`, where `sameKey(host)` compares an allowed origin's host
      with the origin's; an allowed origin the URL parser rejects counts as no match. */
  function AnyMatch(allowed: seq<string>, hostOf: string -> Option<string>, sameKey: string -> bool): (r: bool)
    ensures r <==> exists i :: 0 <= i < |allowed| && hostOf(allowed[i]).Some? && sameKey(hostOf(allowed[i]).value)
  {
    if allowed == [] then false
    else if hostOf(allowed[0]).Some? && sameKey(hostOf(allowed[0]).value) then true
    else
      var r := AnyMatch(allowed[1..], hostOf, sameKey);
      assert forall i :: 1 <= i < |allowed| ==> allowed[i] == allowed[1..][i - 1];
      r
  }

  /** The preview rule as written: the origin is on a Vercel domain and some allowed
      origin's host has the same project key, whatever that host is. */
  predicate SameProjectAsWritten(originHost: string, allowed: seq<string>, hostOf: string -> Option<string>) {
    AnyMatch(allowed, hostOf, h => ProjectKey(originHost) == ProjectKey(h) && VercelHost(originHost))
  }

  /** The preview rule as intended: the origin's host ends in a Vercel domain, its key is
      not empty, and some allowed origin's host ends in a Vercel domain and has the same key. */
  predicate SameProject(originHost: string, allowed: seq<string>, hostOf: string -> Option<string>) {
    OnVercel(originHost) && ProjectKey(originHost) != "" &&
    AnyMatch(allowed, hostOf, h => ProjectKey(originHost) == ProjectKey(h) && OnVercel(h))
  }

  // ---------------------------------------------------------------------------------------
  // The origin callback

  /** The checks that allow an origin before the preview rule: no origin, a development
      environment, no configured origins, or a configured origin. */
  predicate AllowedOutright(production: bool, setting: Option<string>, origin: Option<string>) {
    origin.None? || origin.value == "" || !production ||
    AllowedOrigins(setting) == [] || origin.value in AllowedOrigins(setting)
  }

  /** The callback as written. */
  function OriginVerdictAsWritten(production: bool, setting: Option<string>, origin: Option<string>,
                                  hostOf: string -> Option<string>): (v: Verdict)
    ensures v.Deny? ==> v.message == NotAllowed
    ensures v.Allow? <==> AllowedOutright(production, setting, origin) ||
                          (hostOf(origin.value).Some? &&
                           SameProjectAsWritten(hostOf(origin.value).value, AllowedOrigins(setting), hostOf))
  {
    if AllowedOutright(production, setting, origin) then Allow
    else if hostOf(origin.value).Some? &&
            SameProjectAsWritten(hostOf(origin.value).value, AllowedOrigins(setting), hostOf) then Allow
    else Deny(NotAllowed)
  }

  /** The callback with the preview rule as intended. */
  function OriginVerdict(production: bool, setting: Option<string>, origin: Option<string>,
                         hostOf: string -> Option<string>): (v: Verdict)
    ensures v.Deny? ==> v.message == NotAllowed
    ensures v.Allow? <==> AllowedOutright(production, setting, origin) ||
                          (hostOf(origin.value).Some? &&
                           SameProject(hostOf(origin.value).value, AllowedOrigins(setting), hostOf))
  {
    if AllowedOutright(production, setting, origin) then Allow
    else if hostOf(origin.value).Some? &&
            SameProject(hostOf(origin.value).value, AllowedOrigins(setting), hostOf) then Allow
    else Deny(NotAllowed)
  }

  /** Only production with configured origins ever denies, and then only a present origin
      that is not configured. */
  lemma DenyOnlyInProduction(production: bool, setting: Option<string>, origin: Option<string>,
                             hostOf: string -> Option<string>)
    requires OriginVerdict(production, setting, origin, hostOf).Deny?
    ensures production && AllowedOrigins(setting) != []
    ensures origin.Some? && origin.value != "" && origin.value !in AllowedOrigins(setting)
  {
  }

  /** An origin that the URL parser rejects or whose host is not on a Vercel domain is
      allowed in production, with origins configured, only when it is configured. */
  lemma NonVercelOriginMustBeListed(setting: Option<string>, origin: string, hostOf: string -> Option<string>)
    requires origin != "" && AllowedOrigins(setting) != []
    requires hostOf(origin).None? || !VercelHost(hostOf(origin).value)
    ensures OriginVerdict(true, setting, Some(origin), hostOf).Allow? <==> origin in AllowedOrigins(setting)
    ensures OriginVerdictAsWritten(true, setting, Some(origin), hostOf).Allow? <==> origin in AllowedOrigins(setting)
  {
    if hostOf(origin).Some? {
      var h := hostOf(origin).value;
      OnVercelIsVercelHost(h);
      assert !SameProjectAsWritten(h, AllowedOrigins(setting), hostOf);
    }
  }

  /** Under the intended rule an origin whose host does not end in a Vercel domain (such as
      a Vercel name followed by another domain) is allowed in production only when listed. */
  lemma NotOnVercelMustBeListed(setting: Option<string>, origin: string, hostOf: string -> Option<string>)
    requires origin != "" && AllowedOrigins(setting) != []
    requires hostOf(origin).Some? && !OnVercel(hostOf(origin).value)
    ensures OriginVerdict(true, setting, Some(origin), hostOf).Allow? <==> origin in AllowedOrigins(setting)
  {
  }

  /** The intended rule allows only what the written rule allows. */
  lemma CorrectedOnlyNarrows(production: bool, setting: Option<string>, origin: Option<string>,
                             hostOf: string -> Option<string>)
    requires OriginVerdict(production, setting, origin, hostOf).Allow?
    ensures OriginVerdictAsWritten(production, setting, origin, hostOf).Allow?
  {
    if !AllowedOutright(production, setting, origin) {
      var h := hostOf(origin.value).value;
      var allowed := AllowedOrigins(setting);
      var i :| 0 <= i < |allowed| && hostOf(allowed[i]).Some? &&
               ProjectKey(h) == ProjectKey(hostOf(allowed[i]).value) && OnVercel(hostOf(allowed[i]).value);
      OnVercelIsVercelHost(h);
      assert (h2 => ProjectKey(h) == ProjectKey(h2) && VercelHost(h))(hostOf(allowed[i]).value);
    }
  }

  /** A preview deployment of a configured Vercel project is still allowed by the intended
      rule: same non-empty key, both hosts on Vercel domains. */
  lemma PreviewOfConfiguredProjectAllowed(setting: Option<string>, origin: string, i: nat,
                                          hostOf: string -> Option<string>)
    requires origin != "" && i < |AllowedOrigins(setting)|
    requires hostOf(origin).Some? && OnVercel(hostOf(origin).value) && ProjectKey(hostOf(origin).value) != ""
    requires hostOf(AllowedOrigins(setting)[i]).Some? && OnVercel(hostOf(AllowedOrigins(setting)[i]).value)
    requires ProjectKey(hostOf(AllowedOrigins(setting)[i]).value) == ProjectKey(hostOf(origin).value)
    ensures OriginVerdict(true, setting, Some(origin), hostOf).Allow?
  {
    var h := hostOf(origin).value;
    var sameKey := h2 => ProjectKey(h) == ProjectKey(h2) && OnVercel(h2);
    assert sameKey(hostOf(AllowedOrigins(setting)[i]).value);
  }

  /** The one configured origin `https://app.example.com`. */
  lemma ExampleConfigured()
    ensures AllowedOrigins(Some("https://app.example.com")) == ["https://app.example.com"]
  {
    var configured := "https://app.example.com";
    assert ',' !in configured;
    SplitNoSeparator(configured, ',');
    assert configured[0] == 'h' && configured[|configured| - 1] == 'm';
    LettersNotSpace();
    TrimBare(configured, JsWhitespace);
    CleanedSingle(configured);
  }

  lemma LettersNotSpace()
    ensures 'h' !in JsWhitespace && 'm' !in JsWhitespace
  {
  }

  lemma {:induction false} CleanedSingle(s: string)
    ensures Cleaned([s]) == if Trim(s, JsWhitespace) == "" then [] else [Trim(s, JsWhitespace)]
  {
    assert [s][1..] == [];
  }

  /** `evil.vercel.app` is on a Vercel domain and has the empty key. */
  lemma EvilHostKey()
    ensures VercelHost("evil.vercel.app") && ProjectKey("evil.vercel.app") == ""
  {
    EvilIsVercel();
    EvilKey();
  }

  lemma EvilIsVercel()
    ensures VercelHost("evil.vercel.app")
  {
    var host := "evil.vercel.app";
    assert host[4..15] == ".vercel.app";
    ContainsAt(host, ".vercel.app", 4);
  }

  lemma EvilKey()
    ensures ProjectKey("evil.vercel.app") == ""
  {
    EvilLabel();
    assert '-' !in "evil";
    SplitNoSeparator("evil", '-');
    ShortLabelEmptyKey("evil.vercel.app");
  }

  lemma EvilLabel()
    ensures FirstLabel("evil.vercel.app") == "evil"
  {
    assert "evil.vercel.app" == "evil" + ['.'] + "vercel.app";
    SplitPrefix("evil", "vercel.app", '.');
  }

  /** `app.example.com` has the empty key. */
  lemma ExampleHostKey()
    ensures ProjectKey("app.example.com") == ""
  {
    ExampleLabel();
    assert '-' !in "app";
    SplitNoSeparator("app", '-');
    ShortLabelEmptyKey("app.example.com");
  }

  lemma ExampleLabel()
    ensures FirstLabel("app.example.com") == "app"
  {
    assert "app.example.com" == "app" + ['.'] + "example.com";
    SplitPrefix("app", "example.com", '.');
  }

  /** In production with one configured origin whose host has the empty key, the written
      rule allows every other origin on a Vercel domain whose key is empty too; the intended
      rule denies it. */
  lemma EmptyKeysCollide(configured: string, origin: string, hostOf: string -> Option<string>)
    requires AllowedOrigins(Some(configured)) == [configured]
    requires origin != "" && origin != configured
    requires hostOf(origin).Some? && VercelHost(hostOf(origin).value) && ProjectKey(hostOf(origin).value) == ""
    requires hostOf(configured).Some? && ProjectKey(hostOf(configured).value) == ""
    ensures OriginVerdictAsWritten(true, Some(configured), Some(origin), hostOf).Allow?
    ensures OriginVerdict(true, Some(configured), Some(origin), hostOf).Deny?
  {
    var allowed := AllowedOrigins(Some(configured));
    var h := hostOf(origin).value;
    assert !AllowedOutright(true, Some(configured), Some(origin)) by {
      assert allowed[0] == configured && |allowed| == 1;
    }
    assert SameProjectAsWritten(h, allowed, hostOf) by {
      var sameKey := h2 => ProjectKey(h) == ProjectKey(h2) && VercelHost(h);
      assert allowed[0] == configured && sameKey(hostOf(configured).value);
    }
    assert !SameProject(h, allowed, hostOf);
  }

  lemma ExampleOriginsDiffer()
    ensures "https://evil.vercel.app" != "https://app.example.com"
  {
    assert "https://evil.vercel.app"[8] != "https://app.example.com"[8];
  }

  /** With `https://app.example.com` configured in production, the written rule allows
      `https://evil.vercel.app`, although that deployment has nothing to do with the
      configured site: the first labels `evil` and `app` both have the empty key. */
  lemma EmptyKeyCollision(hostOf: string -> Option<string>)
    requires hostOf("https://evil.vercel.app") == Some("evil.vercel.app")
    requires hostOf("https://app.example.com") == Some("app.example.com")
    ensures OriginVerdictAsWritten(true, Some("https://app.example.com"), Some("https://evil.vercel.app"), hostOf).Allow?
    ensures OriginVerdict(true, Some("https://app.example.com"), Some("https://evil.vercel.app"), hostOf).Deny?
  {
    ExampleConfigured();
    EvilHostKey();
    ExampleHostKey();
    ExampleOriginsDiffer();
    EmptyKeysCollide("https://app.example.com", "https://evil.vercel.app", hostOf);
  }

  // ---------------------------------------------------------------------------------------
  // The error handler

  const InternalError: string := "Internal Server Error"

  /** Every error becomes a 500; production hides the error's message. `res.json` drops a
      field whose value is `undefined`, so an error without a message gives `{}` outside
      production. */
  function ErrorReply(production: bool, message: Json): (r: Reply)
    ensures r.status == 500 && r.body.Obj?
    ensures production ==> r.body.fields == [("error", Str(InternalError))]
    ensures !production && message != Undefined ==> r.body.fields == [("error", message)]
    ensures !production && message == Undefined ==> r.body.fields == []
    ensures Get(r.body, "error") == if production then Str(InternalError) else message
  {
    if !production && message == Undefined then Reply(500, Obj([]))
    else
      var body := Obj([("error", if production then Str(InternalError) else message)]);
      GetAt(body, 0);
      Reply(500, body)
  }

  /** A denied origin reaches the error handler as an error whose message is
      "Not allowed by CORS"; the response never shows it, since only production denies. */
  lemma DeniedOriginReply(production: bool, setting: Option<string>, origin: Option<string>,
                          hostOf: string -> Option<string>)
    requires OriginVerdict(production, setting, origin, hostOf).Deny?
    ensures ErrorReply(production, Str(OriginVerdict(production, setting, origin, hostOf).message)) ==
            Reply(500, Obj([("error", Str(InternalError))]))
  {
    DenyOnlyInProduction(production, setting, origin, hostOf);
  }
}
