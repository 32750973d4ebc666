/** The Gitleaks adapter (src/services/gitLeaksService.ts): runs
    `gitleaks detect` on the repository and classifies its standard
    output as no leaks, a JSON list of leaks, a plain-text "leaks found"
    report, or an error. */
module Gitleaks {
  import opened Js
  import opened ToolCommon

  /** What `runGitleaks` resolves with. `warning` is present only on the
      plain-text fallback. */
  datatype GitleaksReport = GitleaksReport(leaks: Json, rawOutput: Json, warning: Option<string>)

  const ParseFailureMessage := "Failed to parse Gitleaks output as JSON"

  /** The text whose presence selects the plain-text fallback. */
  const FallbackMarker := "leaks found:"

  /** The literal part of the pattern `leaks found: (\d+)`. */
  const CountMarker := "leaks found: "

  function GitleaksCommand(targetPath: string): string
  {
    "gitleaks detect --source=" + targetPath + " --report-format json"
  }

  predicate IsAsciiDigit(c: char)
  {
    '0' <= c <= '9'
  }

  /** The pattern `leaks found: (\d+)` matches at index `p` of `s`. */
  predicate CountMatchesAt(s: string, p: int)
  {
    0 <= p && p + |CountMarker| < |s| && s[p..p + |CountMarker|] == CountMarker
    && IsAsciiDigit(s[p + |CountMarker|])
  }

  /** The leftmost index at or after `from` where the pattern matches, as a
      regular-expression search scans the input. */
  function FirstCountMatch(s: string, from: nat): (r: Option<nat>)
    ensures r.Some? ==> from <= r.value && CountMatchesAt(s, r.value)
    ensures r.Some? ==> forall q :: from <= q < r.value ==> !CountMatchesAt(s, q)
    ensures r.None? ==> forall q :: from <= q ==> !CountMatchesAt(s, q)
    decreases |s| - from
  {
    if from + |CountMarker| >= |s| then None
    else if CountMatchesAt(s, from) then Some(from)
    else FirstCountMatch(s, from + 1)
  }

  /** The length of the run of ASCII digits starting at index `i`: what the
      greedy group `(\d+)` captures. */
  function DigitsFrom(s: string, i: nat): (k: nat)
    requires i <= |s|
    ensures i + k <= |s|
    ensures forall j :: i <= j < i + k ==> IsAsciiDigit(s[j])
    ensures i + k < |s| ==> !IsAsciiDigit(s[i + k])
    decreases |s| - i
  {
    if i < |s| && IsAsciiDigit(s[i]) then 1 + DigitsFrom(s, i + 1) else 0
  }

  /** `parseInt(output.match(/leaks found: (\d+)/)?.[1] || '0')`: the number
      captured at the leftmost match, or 0 when the pattern does not
      match. */
  function LeakCount(output: string): (n: nat)
    // a count other than 0 is read only where the fallback marker occurs
    ensures n != 0 ==> Contains(output, FallbackMarker)
  {
    match FirstCountMatch(output, 0)
    case None => 0
    case Some(p) =>
      var start := p + |CountMarker|;
      var digits := output[start..start + DigitsFrom(output, start)];
      assert forall j :: 0 <= j < |digits| ==> IsDigitIn(digits[j], 10) by {
        forall j | 0 <= j < |digits| ensures IsDigitIn(digits[j], 10) {
          assert IsAsciiDigit(output[start + j]);
        }
      }
      assert OccursAt(output, FallbackMarker, p) by {
        assert output[p..p + |FallbackMarker|] == output[p..p + |CountMarker|][..|FallbackMarker|];
      }
      DigitsValue(digits, 10)
  }

  /** The leak count is the number written right after the leftmost
      "leaks found: " that is followed by a digit. */
  lemma LeakCountOfReport(prefix: string, n: nat, rest: string)
    requires var s := prefix + CountMarker + NatToString(n) + rest;
             forall q :: 0 <= q < |prefix| ==> !CountMatchesAt(s, q)
    requires rest == "" || !IsAsciiDigit(rest[0])
    ensures LeakCount(prefix + CountMarker + NatToString(n) + rest) == n
  {
    var s := prefix + CountMarker + NatToString(n) + rest;
    var p := |prefix|;
    var d := NatToString(n);
    assert s[p..p + |CountMarker|] == CountMarker;
    assert s[p + |CountMarker|] == d[0];
    assert CountMatchesAt(s, p);
    var start := p + |CountMarker|;
    assert s[start..start + |d|] == d;
    assert s[start + |d|..] == rest;
    DigitRunIsNumber(s, start, d, rest);
    NatToStringValue(n);
  }

  /** Without a match the count is 0. */
  lemma LeakCountWithoutMatch(output: string)
    requires forall q :: 0 <= q ==> !CountMatchesAt(output, q)
    ensures LeakCount(output) == 0
  {
  }

  lemma DigitRunIsNumber(s: string, start: nat, d: string, rest: string)
    requires start + |d| + |rest| == |s|
    requires s[start..start + |d|] == d && s[start + |d|..] == rest
    requires forall i :: 0 <= i < |d| ==> IsDigitIn(d[i], 10)
    requires rest == "" || !IsAsciiDigit(rest[0])
    ensures start + |d| <= |s| && DigitsFrom(s, start) == |d|
    decreases |d|
  {
    if d != [] {
      assert s[start] == d[0];
      assert IsDigitIn(d[0], 10);
      assert s[start + 1..start + 1 + |d[1..]|] == d[1..];
      DigitRunIsNumber(s, start + 1, d[1..], rest);
    } else if rest != [] {
      assert s[start] == rest[0];
    }
  }

  const WarningTail := " leaks but could not parse details"

  /** `Found ${leakCount} leaks but could not parse details`: the count can
      be read back from the text. */
  function WarningText(count: nat): (w: string)
    ensures |w| > 6 && w[..6] == "Found "
    ensures ParseInt(w[6..]) == Some(count)
  {
    var d := NatToString(count) + WarningTail;
    ParseIntOfDecimal(count, WarningTail);
    var w := "Found " + d;
    assert w[6..] == d;
    w
  }

  /** `leak.rule` cannot be turned into text by `join(', ')`. */
  predicate RuleUnprintable(leak: Json)
  {
    leak.JObj? && "rule" in leak.fields && ConversionThrows(leak.fields["rule"])
  }

  /** The log line after a successful parse evaluates
      `[...new Set(parsed.map(leak => leak.rule))].join(', ')`: it throws
      unless `parsed` is an array with no `null` element and no `rule` that
      cannot be converted to text. */
  function LogParsed(parsed: Json): (r: Result<(), TypeFault>)
    ensures r.Ok? <==> && parsed.JArr? && JNull !in parsed.items
                       && forall i :: 0 <= i < |parsed.items| ==> !RuleUnprintable(parsed.items[i])
  {
    match parsed
    case JNull => Err(ReadOfNull("length"))
    case JArr(items) =>
      if JNull in items then Err(ReadOfNull("rule"))
      else if exists i :: 0 <= i < |items| && RuleUnprintable(items[i]) then Err(NoPrimitive)
      else Ok(())
    case _ => Err(NotAFunction("map"))
  }

  /** The inner `catch`: plain-text output mentioning "leaks found:" gives
      an empty list and a warning; anything else is a parse failure. */
  function ParseFallback(output: string): (r: Result<GitleaksReport, Failure>)
    ensures r.Ok? <==> Contains(output, FallbackMarker)
    ensures r.Err? ==> r.error == Raised(ParseFailureMessage)
    ensures r.Ok? ==> && r.value.leaks == EmptyArray && r.value.rawOutput == JStr(output)
                      && r.value.warning == Some(WarningText(LeakCount(output)))
  {
    if Contains(output, FallbackMarker) then
      Ok(GitleaksReport(EmptyArray, JStr(output), Some(WarningText(LeakCount(output)))))
    else
      Err(Raised(ParseFailureMessage))
  }

  /** `runGitleaks(targetPath)`. */
  function RunGitleaks(targetPath: string, shell: Shell, parse: Parser): (r: Run<GitleaksReport>)
    ensures r.commands == [GitleaksCommand(targetPath)]
    // a command failure is rethrown unchanged
    ensures RunCommand(shell(GitleaksCommand(targetPath))).Err? ==>
              r.result == Err(CommandFailed(RunCommand(shell(GitleaksCommand(targetPath))).error))
    // the only other error is the adapter's own parse failure
    ensures r.result.Err? && RunCommand(shell(GitleaksCommand(targetPath))).Ok? ==>
              r.result.error == Raised(ParseFailureMessage)
  {
    var cmd := GitleaksCommand(targetPath);
    match RunCommand(shell(cmd))
    case Err(m) => Run([cmd], Err(CommandFailed(m)))
    case Ok(output) =>
      if IsBlank(output) then
        Run([cmd], Ok(GitleaksReport(EmptyArray, EmptyArray, None)))
      else
        match parse(output)
        case Err(_) => Run([cmd], ParseFallback(output))
        case Ok(parsed) =>
          if LogParsed(parsed).Err? then Run([cmd], ParseFallback(output))
          else Run([cmd], Ok(GitleaksReport(Or(Some(parsed), EmptyArray), parsed, None)))
  }

  /** Blank output means no leaks, and is not an error. */
  lemma BlankOutputIsNoLeaks(targetPath: string, shell: Shell, parse: Parser)
    requires shell(GitleaksCommand(targetPath)).Exited?
    requires IsBlank(shell(GitleaksCommand(targetPath)).stdout)
    ensures RunGitleaks(targetPath, shell, parse).result == Ok(GitleaksReport(EmptyArray, EmptyArray, None))
  {
  }

  /** Output that parses to an array of non-null leaks whose rules can be
      printed is both the leak list and the raw output. */
  lemma ArrayOutputIsLeakList(targetPath: string, shell: Shell, parse: Parser, items: seq<Json>)
    requires shell(GitleaksCommand(targetPath)).Exited?
    requires !IsBlank(shell(GitleaksCommand(targetPath)).stdout)
    requires parse(shell(GitleaksCommand(targetPath)).stdout) == Ok(JArr(items))
    requires JNull !in items && forall i :: 0 <= i < |items| ==> !RuleUnprintable(items[i])
    ensures RunGitleaks(targetPath, shell, parse).result == Ok(GitleaksReport(JArr(items), JArr(items), None))
  {
  }

  /** Output that parses, but not to an array of non-null leaks whose
      rules can be printed, is treated like unparseable output: the
      fallback report or the parse failure. */
  lemma NonArrayOutputFallsBack(targetPath: string, shell: Shell, parse: Parser)
    requires shell(GitleaksCommand(targetPath)).Exited?
    requires !IsBlank(shell(GitleaksCommand(targetPath)).stdout)
    requires parse(shell(GitleaksCommand(targetPath)).stdout).Ok?
    requires var v := parse(shell(GitleaksCommand(targetPath)).stdout).value;
             !v.JArr? || JNull in v.items || exists i :: 0 <= i < |v.items| && RuleUnprintable(v.items[i])
    ensures RunGitleaks(targetPath, shell, parse).result == ParseFallback(shell(GitleaksCommand(targetPath)).stdout)
  {
  }

  /** The fallback: unparseable output that mentions "leaks found:" is a
      report with no leak details, the raw text, and the count warning;
      otherwise the adapter throws its parse-failure error. */
  lemma UnparseableOutput(targetPath: string, shell: Shell, parse: Parser)
    requires shell(GitleaksCommand(targetPath)).Exited?
    requires !IsBlank(shell(GitleaksCommand(targetPath)).stdout)
    requires parse(shell(GitleaksCommand(targetPath)).stdout).Err?
    ensures var out := shell(GitleaksCommand(targetPath)).stdout;
            var r := RunGitleaks(targetPath, shell, parse).result;
            && (Contains(out, FallbackMarker) ==>
                  r == Ok(GitleaksReport(EmptyArray, JStr(out), Some(WarningText(LeakCount(out))))))
            && (!Contains(out, FallbackMarker) ==> r == Err(Raised(ParseFailureMessage)))
  {
  }
}
