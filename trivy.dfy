/** The Trivy adapter (src/services/trivyService.ts): runs `trivy fs` on
    the repository, logs the number of vulnerabilities, and returns the
    `Results` list. It has no special case for empty output and wraps no
    error. */
module Trivy {
  import opened Js
  import opened ToolCommon

  datatype TrivyReport = TrivyReport(vulns: Json, rawOutput: Json)

  /** The command line; the repository path is its last argument. */
  function TrivyCommand(targetPath: string): (cmd: string)
    ensures |targetPath| <= |cmd| && cmd[|cmd| - |targetPath|..] == targetPath
  {
    "trivy fs --quiet --format json " + targetPath
  }

  /** `v?.length`: arrays give their element count, strings their
      character count, an object its own `length` field; optional chaining
      stops at `null` and `undefined`, and other values have no `length`. */
  function LengthOf(v: Option<Json>): Option<Json>
  {
    match v
    case Some(JArr(items)) => Some(JNum(|items| as real))
    case Some(JStr(text)) => Some(JNum(|text| as real))
    case Some(JObj(m)) => if "length" in m then Some(m["length"]) else None
    case _ => None
  }

  /** `curr.Vulnerabilities?.length || 0` for one entry of `Results`: the
      value added to the running total. Reading the field of a `null` entry
      throws. */
  function Addend(curr: Json): (r: Result<Json, TypeFault>)
    ensures r.Err? <==> curr == JNull
    ensures r.Ok? ==> Truthy(Some(r.value)) || r.value == JNum(0.0)
  {
    match Get(curr, "Vulnerabilities")
    case Err(f) => Err(f)
    case Ok(v) => Ok(Or(LengthOf(v), JNum(0.0)))
  }

  /** The running total: a number, or text once a string, array or object
      has been concatenated to it. The text only reaches the log, so its
      content is not kept. */
  datatype Total = Sum(n: real) | Text

  /** `acc + x`: numeric addition while both sides are numbers (with
      `true` as 1 and `null` as 0), string concatenation otherwise. Both
      operands are first converted to primitives, which throws for an
      object that cannot be converted. */
  function Plus(acc: Total, x: Json): (r: Result<Total, TypeFault>)
    ensures r.Err? <==> ConversionThrows(x)
    ensures r.Ok? && acc.Sum? && x.JNum? ==> r.value == Sum(acc.n + x.n)
    ensures r.Ok? && (acc.Text? || x.JStr? || x.JArr? || x.JObj?) ==> r.value == Text
  {
    if ConversionThrows(x) then Err(NoPrimitive)
    else
      match (acc, x)
      case (Sum(n), JNum(m)) => Ok(Sum(n + m))
      case (Sum(n), JBool(b)) => Ok(Sum(if b then n + 1.0 else n))
      case (Sum(n), JNull) => Ok(Sum(n))
      case _ => Ok(Text)
  }

  /** The entry makes the fold throw: it is `null`, or what it adds cannot
      be converted to a primitive. */
  predicate EntryThrows(curr: Json)
  {
    curr == JNull || ConversionThrows(Addend(curr).value)
  }

  /** `xs.reduce((acc, curr) => acc + Addend(curr), acc)`: a left fold. It
      throws exactly when some entry does. */
  function Reduce(acc: Total, xs: seq<Json>): (r: Result<Total, TypeFault>)
    ensures r.Err? <==> exists i :: 0 <= i < |xs| && EntryThrows(xs[i])
    decreases |xs|
  {
    if xs == [] then Ok(acc)
    else
      assert forall i :: 1 <= i < |xs| ==> xs[1..][i - 1] == xs[i];
      match Addend(xs[0])
      case Err(f) => Err(f)
      case Ok(x) =>
        match Plus(acc, x)
        case Err(f) => Err(f)
        case Ok(next) => Reduce(next, xs[1..])
  }

  /** An entry as Trivy writes it: an object or other non-null value whose
      `Vulnerabilities` is a list, absent or `null`. */
  predicate PlainEntry(curr: Json)
  {
    curr != JNull
    && var v := Get(curr, "Vulnerabilities").value;
       v.None? || v.value == JNull || v.value.JArr?
  }

  /** The number of vulnerabilities a plain entry lists. */
  function ListedVulns(curr: Json): nat
    requires PlainEntry(curr)
  {
    var v := Get(curr, "Vulnerabilities").value;
    if v.Some? && v.value.JArr? then |v.value.items| else 0
  }

  /** The vulnerability total as a plain sum over the entries. */
  ghost function TotalVulns(xs: seq<Json>): nat
    requires forall i :: 0 <= i < |xs| ==> PlainEntry(xs[i])
  {
    if xs == [] then 0 else ListedVulns(xs[0]) + TotalVulns(xs[1..])
  }

  /** Over plain entries the fold adds up the listed vulnerabilities. */
  lemma {:induction false} ReduceIsTotal(acc: real, xs: seq<Json>)
    requires forall i :: 0 <= i < |xs| ==> PlainEntry(xs[i])
    ensures Reduce(Sum(acc), xs) == Ok(Sum(acc + TotalVulns(xs) as real))
    decreases |xs|
  {
    if xs != [] {
      var x := Addend(xs[0]).value;
      assert x == JNum(ListedVulns(xs[0]) as real);
      assert forall i :: 0 <= i < |xs[1..]| ==> PlainEntry(xs[1..][i]) by {
        forall i | 0 <= i < |xs[1..]| ensures PlainEntry(xs[1..][i]) {
          assert xs[1..][i] == xs[i + 1];
        }
      }
      ReduceIsTotal(acc + ListedVulns(xs[0]) as real, xs[1..]);
    }
  }

  /** The logged total, `parsed.Results?.reduce(...) || 0`. Optional
      chaining stops only at `null` or absence; a `Results` that is any
      other non-array has no `reduce` method and the call throws. */
  function LoggedTotal(results: Option<Json>): (r: Result<Total, TypeFault>)
    ensures results.Some? && results.value.JArr? ==>
              (r.Err? <==> exists i :: 0 <= i < |results.value.items| && EntryThrows(results.value.items[i]))
    ensures results.Some? && results.value.JArr? && (forall i :: 0 <= i < |results.value.items| ==> PlainEntry(results.value.items[i])) ==>
              r == Ok(Sum(TotalVulns(results.value.items) as real))
    ensures results.Some? && !results.value.JArr? && results.value != JNull ==>
              r == Err(NotAFunction("reduce"))
    ensures results.None? || results == Some(JNull) ==> r == Ok(Sum(0.0))
  {
    match results
    case None => Ok(Sum(0.0))
    case Some(JNull) => Ok(Sum(0.0))
    case Some(JArr(items)) =>
      if forall i :: 0 <= i < |items| ==> PlainEntry(items[i]) then
        ReduceIsTotal(0.0, items);
        Reduce(Sum(0.0), items)
      else
        Reduce(Sum(0.0), items)
    case Some(_) => Err(NotAFunction("reduce"))
  }

  /** `runTrivy(targetPath)`. */
  function RunTrivy(targetPath: string, shell: Shell, parse: Parser): (r: Run<TrivyReport>)
    ensures r.commands == [TrivyCommand(targetPath)]
    // every error is rethrown as it was raised: nothing is wrapped
    ensures r.result.Err? ==> !r.result.error.Raised?
    ensures var out := RunCommand(shell(TrivyCommand(targetPath)));
            && (out.Err? ==> r.result == Err(CommandFailed(out.error)))
            && (out.Ok? && parse(out.value).Err? ==> r.result == Err(ParseRejected(parse(out.value).error)))
            && (out.Ok? && r.result.Ok? ==> r.result.value.rawOutput == parse(out.value).value)
    ensures r.result.Ok? ==> Truthy(Some(r.result.value.vulns))
  {
    var cmd := TrivyCommand(targetPath);
    match RunCommand(shell(cmd))
    case Err(m) => Run([cmd], Err(CommandFailed(m)))
    case Ok(output) =>
      match parse(output)
      case Err(m) => Run([cmd], Err(ParseRejected(m)))
      case Ok(parsed) =>
        match Get(parsed, "Results")
        case Err(f) => Run([cmd], Err(TypeErr(f)))
        case Ok(results) =>
          match LoggedTotal(results)
          case Err(f) => Run([cmd], Err(TypeErr(f)))
          case Ok(_) => Run([cmd], Ok(TrivyReport(Or(results, EmptyArray), parsed)))
  }

  /** Empty output is not special-cased: it reaches `JSON.parse`, whose
      error is rethrown. */
  lemma BlankOutputIsParseError(targetPath: string, shell: Shell, parse: Parser)
    requires RejectsBlank(parse)
    requires shell(TrivyCommand(targetPath)).Exited?
    requires IsBlank(shell(TrivyCommand(targetPath)).stdout)
    ensures RunTrivy(targetPath, shell, parse).result.Err?
    ensures RunTrivy(targetPath, shell, parse).result.error.ParseRejected?
  {
  }

  /** A JSON object whose `Results` is absent, or an array none of whose
      entries makes the logged fold throw, gives `vulns = Results` (or
      `[]`) and keeps the object as the raw output. */
  lemma ObjectOutput(targetPath: string, shell: Shell, parse: Parser)
    requires shell(TrivyCommand(targetPath)).Exited?
    requires var out := shell(TrivyCommand(targetPath)).stdout;
             parse(out).Ok? && parse(out).value.JObj?
    requires var fields := parse(shell(TrivyCommand(targetPath)).stdout).value.fields;
             "Results" in fields ==> && fields["Results"].JArr?
                                     && forall i :: 0 <= i < |fields["Results"].items| ==> !EntryThrows(fields["Results"].items[i])
    ensures var parsed := parse(shell(TrivyCommand(targetPath)).stdout).value;
            var r := RunTrivy(targetPath, shell, parse).result;
            && r.Ok? && r.value.rawOutput == parsed
            && r.value.vulns == (if "Results" in parsed.fields then parsed.fields["Results"] else EmptyArray)
  {
  }
}
