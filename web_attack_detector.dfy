/** The web-attack detector (detectors/web_attack_detector.py): each log
    line is checked against three ordered lists of patterns (SQL
    injection, local file inclusion, path traversal); the first list with
    a pattern found anywhere in the line decides the one alert published,
    whose severity depends on the attack kind. The detector keeps no
    state. */
module WebAttackDetector {
  import opened Wrappers
  import opened Text
  import opened Json

  // ---------------------------------------------------------------------
  // The patterns
  // ---------------------------------------------------------------------

  /** The shapes of regular expression the pattern lists use. */
  datatype Pattern =
      /** A literal text, as `etc/passwd` or `\.\./`. */
    | Lit(text: string)
      /** A group repeated one or more times, as `(\.\./)+`. */
    | OneOrMore(unit: string)
      /** An alternation of literals, as `(\%27)|(\')|(\-\-)`. */
    | AnyOf(alts: seq<string>)
      /** `(?i)(first(\s+)second)`: two words, case ignored, separated by
          whitespace. The words are given in lower case. */
    | Spaced(first: string, second: string)
      /** `(?i)(text)`: a literal with case ignored, given in lower case. */
    | IgnoreCase(text: string)

  /** `n` copies of `u` one after another. */
  function Repeat(u: string, n: nat): (r: string)
    ensures |r| == n * |u|
  {
    if n == 0 then [] else u + Repeat(u, n - 1)
  }

  /** `(first)(\s+)(second)` at `i`, case ignored: `\s+` is greedy and
      `second` cannot start with whitespace, so the whole run of spaces is
      taken. */
  predicate SpacedAt(s: string, first: string, second: string, i: nat) {
    && OccursAtIgnoreCase(s, first, i)
    && var n := Run(s, i + |first|, IsSpace);
    && n >= 1
    && OccursAtIgnoreCase(s, second, i + |first| + n)
  }

  /** `re.search(p, s)` succeeds. */
  predicate Search(p: Pattern, s: string) {
    match p
    case Lit(t) => Contains(s, t)
    case OneOrMore(u) => exists i: nat, n: nat :: 1 <= n <= |s| && i <= |s| && OccursAt(s, Repeat(u, n), i)
    case AnyOf(alts) => exists k :: 0 <= k < |alts| && Contains(s, alts[k])
    case Spaced(a, b) => exists i: nat :: i + |a| <= |s| && SpacedAt(s, a, b, i)
    case IgnoreCase(t) => ContainsIgnoreCase(s, t)
  }

  /** `matches(line, patterns)`: `any(re.search(p, line) for p in patterns)`. */
  predicate Matches(s: string, patterns: seq<Pattern>) {
    exists k :: 0 <= k < |patterns| && Search(patterns[k], s)
  }

  const QuoteOrComment: Pattern := AnyOf(["%27", "'", "--", "%23", "#"])
  const UnionSelect: Pattern := Spaced("union", "select")
  const OrOneEqualsOne: Pattern := Spaced("or", "'1'='1'")
  const SleepCall: Pattern := IgnoreCase("sleep(")

  const SqliPatterns: seq<Pattern> := [QuoteOrComment, UnionSelect, OrOneEqualsOne, SleepCall]
  const LfiPatterns: seq<Pattern> := [OneOrMore("../"), OneOrMore("%2e%2e%2f"), Lit("etc/passwd")]
  const PathTraversalPatterns: seq<Pattern> := [Lit("../"), Lit("%2e%2e%2f")]

  /** Searching for a repeated group finds something exactly when the
      group itself occurs. */
  lemma OneOrMoreIsContains(u: string, s: string)
    requires u != []
    ensures Search(OneOrMore(u), s) <==> Contains(s, u)
  {
    if Search(OneOrMore(u), s) {
      var i: nat, n: nat :| 1 <= n <= |s| && i <= |s| && OccursAt(s, Repeat(u, n), i);
      var r := Repeat(u, n);
      assert r[..|u|] == u;
      assert s[i..i + |u|] == r[..|u|];
      assert OccursAt(s, u, i);
    }
    if Contains(s, u) {
      var i: nat :| i + |u| <= |s| && OccursAt(s, u, i);
      assert Repeat(u, 1) == u;
      assert OccursAt(s, Repeat(u, 1), i);
    }
  }

  /** A quote found case-insensitively is a quote: lower-casing only moves
      'A'..'Z'. */
  lemma OrOneEqualsOneHasQuote(s: string)
    requires Search(OrOneEqualsOne, s)
    ensures Search(QuoteOrComment, s)
  {
    var i: nat :| i + |"or"| <= |s| && SpacedAt(s, "or", "'1'='1'", i);
    var j := i + |"or"| + Run(s, i + |"or"|, IsSpace);
    assert Lower(s[j + 0]) == "'1'='1'"[0];
    assert s[j..j + 1] == "'";
    assert OccursAt(s, "'", j);
    assert Contains(s, QuoteOrComment.alts[1]);
  }

  /** Every path-traversal pattern is found only where a file-inclusion
      pattern is found too. */
  lemma PathTraversalImpliesLfi(s: string)
    requires Matches(s, PathTraversalPatterns)
    ensures Matches(s, LfiPatterns)
  {
    var k :| 0 <= k < |PathTraversalPatterns| && Search(PathTraversalPatterns[k], s);
    var u := PathTraversalPatterns[k].text;
    OneOrMoreIsContains(u, s);
    assert Search(LfiPatterns[k], s);
  }

  // ---------------------------------------------------------------------
  // Classification
  // ---------------------------------------------------------------------

  datatype Attack = Sqli | Lfi | PathTraversal

  /** The `attack_type` text. */
  function AttackName(a: Attack): string {
    match a
    case Sqli => "SQLi"
    case Lfi => "LFI"
    case PathTraversal => "Path Traversal"
  }

  /** `"high" if attack_type in ["SQLi", "LFI"] else "medium"`. */
  function Severity(a: Attack): (r: string)
    ensures r == "high" <==> a != PathTraversal
    ensures r == "medium" <==> a == PathTraversal
  {
    if AttackName(a) in ["SQLi", "LFI"] then "high" else "medium"
  }

  /** The if-chain of `process_log`: the first list that matches wins. */
  function Classify(s: string): (r: Option<Attack>)
    ensures r == Some(Sqli) <==> Matches(s, SqliPatterns)
    ensures r == Some(Lfi) <==> !Matches(s, SqliPatterns) && Matches(s, LfiPatterns)
    ensures r.None? <==> !Matches(s, SqliPatterns) && !Matches(s, LfiPatterns) && !Matches(s, PathTraversalPatterns)
  {
    if Matches(s, SqliPatterns) then Some(Sqli)
    else if Matches(s, LfiPatterns) then Some(Lfi)
    else if Matches(s, PathTraversalPatterns) then Some(PathTraversal)
    else None
  }

  /** The path-traversal branch is dead: whatever reaches it has already
      been classified as file inclusion. */
  lemma PathTraversalUnreachable(s: string)
    ensures Classify(s) != Some(PathTraversal)
  {
    if Matches(s, PathTraversalPatterns) {
      PathTraversalImpliesLfi(s);
    }
  }

  /** So every alert is of severity "high". */
  lemma EveryAlertHigh(s: string)
    requires Classify(s).Some?
    ensures Severity(Classify(s).value) == "high"
  {
    PathTraversalUnreachable(s);
  }

  /** A line holding any of `'`, `--`, `#`, `%27`, `%23` is SQL injection. */
  lemma QuoteIsSqli(s: string, k: nat)
    requires k < |QuoteOrComment.alts| && Contains(s, QuoteOrComment.alts[k])
    ensures Classify(s) == Some(Sqli)
  {
    assert Search(SqliPatterns[0], s);
  }

  // ---------------------------------------------------------------------
  // The address
  // ---------------------------------------------------------------------

  /** `(\d+\.\d+\.\d+\.\d+)` at `i`: four maximal digit runs (the pattern
      ends there, so the greedy last run keeps all its digits). */
  function QuadAt(s: string, i: nat): Option<string>
    requires i <= |s|
  {
    match DottedRunsEnd(s, i, 4)
    case None => None
    case Some(e) => Some(s[i..e])
  }

  function QuadMatchesAt(s: string): nat -> bool {
    (i: nat) => i <= |s| && QuadAt(s, i).Some?
  }

  /** `ip_match.group(1) if ip_match else "unknown"`: the leftmost quad. */
  function ExtractIp(s: string): string {
    match FirstWhere(0, |s| + 1, QuadMatchesAt(s))
    case None => "unknown"
    case Some(i) => QuadAt(s, i).value
  }

  /** The address is the quad found at the leftmost index where one
      starts, and "unknown" exactly when no index starts one. */
  lemma ExtractIpFirst(s: string)
    ensures ExtractIp(s) == "unknown" <==> forall i: nat :: i <= |s| ==> QuadAt(s, i).None?
    ensures ExtractIp(s) != "unknown" ==>
              exists i: nat :: i <= |s| && QuadAt(s, i) == Some(ExtractIp(s))
                               && forall j: nat :: j < i ==> QuadAt(s, j).None?
  {
    var ok := QuadMatchesAt(s);
    match FirstWhere(0, |s| + 1, ok)
    case None =>
      forall i: nat | i <= |s|
        ensures QuadAt(s, i).None?
      {
        assert !ok(i);
      }
    case Some(i) =>
      forall j: nat | j < i
        ensures QuadAt(s, j).None?
      {
        assert !ok(j);
      }
      var e := DottedRunsEnd(s, i, 4).value;
      DottedQuadCapture(s, i, e);
      assert ExtractIp(s) != "unknown" by {
        assert IsDottedQuad(ExtractIp(s));
        assert !IsDottedQuad("unknown");
      }
  }

  // ---------------------------------------------------------------------
  // Alerts
  // ---------------------------------------------------------------------

  datatype Alert = Alert(ip: string, attack: Attack, payload: string)

  /** `process_log(line)`: at most one alert, for the first matching list. */
  function ProcessLog(s: string): (r: Option<Alert>)
    ensures r.Some? <==> Classify(s).Some?
    ensures r.Some? ==> r.value == Alert(ExtractIp(s), Classify(s).value, s)
  {
    match Classify(s)
    case None => None
    case Some(a) => Some(Alert(ExtractIp(s), a, s))
  }

  /** The dict `publish_alert` sends; the clock supplies the text after
      "web-" in the id and the timestamp text. */
  function AlertMessage(a: Alert, stamp: string, timestamp: string): (v: Value)
    ensures v.Obj?
    ensures Lookup(v.members, "id") == Some(Str("web-" + stamp))
    ensures Lookup(v.members, "type") == Some(Str("web.attack.alert"))
    ensures Lookup(v.members, "source") == Some(Str("detector"))
    ensures Lookup(v.members, "stage") == Some(Str("web_attack"))
    ensures Lookup(v.members, "attack_type") == Some(Str(AttackName(a.attack)))
    ensures Lookup(v.members, "ip") == Some(Str(a.ip))
    ensures Lookup(v.members, "payload") == Some(Str(a.payload))
    ensures Lookup(v.members, "severity") == Some(Str(Severity(a.attack)))
  {
    var ms := [
      ("id", Str("web-" + stamp)),
      ("type", Str("web.attack.alert")),
      ("source", Str("detector")),
      ("stage", Str("web_attack")),
      ("attack_type", Str(AttackName(a.attack))),
      ("ip", Str(a.ip)),
      ("payload", Str(a.payload)),
      ("severity", Str(Severity(a.attack))),
      ("timestamp", Str(timestamp))
    ];
    LookupFirst(ms, "id", 0);
    LookupFirst(ms, "type", 1);
    LookupFirst(ms, "source", 2);
    LookupFirst(ms, "stage", 3);
    LookupFirst(ms, "attack_type", 4);
    LookupFirst(ms, "ip", 5);
    LookupFirst(ms, "payload", 6);
    LookupFirst(ms, "severity", 7);
    Obj(ms)
  }

  // ---------------------------------------------------------------------
  // main's payload filter
  // ---------------------------------------------------------------------

  /** `json.loads` and `data["line"]` sit in one `try` whose `except`
      skips the message: invalid JSON, a value that is not a dict and a
      dict without "line" are all skipped. A "line" that is not a string
      reaches `re.search`, which raises outside the `try`. */
  function LineOf(parsed: Option<Value>): (d: Delivery)
    ensures parsed.None? ==> d == Skip
    ensures d.Line? <==> parsed.Some? && parsed.value.Obj?
                         && Lookup(parsed.value.members, "line").Some?
                         && Lookup(parsed.value.members, "line").value.Str?
    ensures d.Line? ==> d.line == Lookup(parsed.value.members, "line").value.s
    ensures d.Crash? <==> parsed.Some? && parsed.value.Obj?
                          && Lookup(parsed.value.members, "line").Some?
                          && !Lookup(parsed.value.members, "line").value.Str?
  {
    match parsed
    case None => Skip
    case Some(v) =>
      if !v.Obj? then Skip
      else
        match Lookup(v.members, "line")
        case None => Skip
        case Some(l) => if l.Str? then Line(l.s) else Crash
  }
}
