/** The request-body schema of `POST /scan` (src/validations/scanSchema.ts):
    an object whose `repoUrl` is a string that is a URL and matches
    `^https://github\.com/.+/.+$`, validated as zod's `safeParse` does. */
module ScanSchema {
  import opened Js

  const GithubPrefix := "https://github.com/"
  const NotGithubMessage := "Only Github repo URLs are allowed"
  const InvalidUrlMessage := "Invalid url"

  /** One problem zod reports. `path` is empty for the body itself and
      `["repoUrl"]` for the field. */
  datatype Issue =
    | InvalidType(path: seq<string>, expected: string, received: string)
    | InvalidString(path: seq<string>, message: string)

  /** The name zod gives to the type of a value; `None` is `undefined`. */
  function ReceivedType(v: Option<Json>): string
  {
    match v
    case None => "undefined"
    case Some(JNull) => "null"
    case Some(JBool(_)) => "boolean"
    case Some(JNum(_)) => "number"
    case Some(JStr(_)) => "string"
    case Some(JArr(_)) => "array"
    case Some(JObj(_)) => "object"
  }

  function IssueMessage(i: Issue): string
  {
    match i
    case InvalidType(_, expected, received) =>
      if received == "undefined" then "Required" else "Expected " + expected + ", received " + received
    case InvalidString(_, message) => message
  }

  /** The characters `.` does not match in a regular expression without the
      `s` flag. */
  predicate IsLineTerminator(c: char)
  {
    c == '\n' || c == '\r' || c == '\U{2028}' || c == '\U{2029}'
  }

  /** A run that `.+`-style patterns can match: no line terminators. */
  predicate IsLine(s: string)
  {
    forall i :: 0 <= i < |s| ==> !IsLineTerminator(s[i])
  }

  /** The regular expression's meaning: the prefix, then a non-empty line,
      a slash and a non-empty line. */
  ghost predicate RepoParts(s: string, owner: string, name: string)
  {
    |owner| >= 1 && |name| >= 1 && IsLine(owner) && IsLine(name) && s == GithubPrefix + owner + "/" + name
  }

  ghost predicate MatchesRepoPattern(s: string)
  {
    exists owner, name :: RepoParts(s, owner, name)
  }

  /** The check as the service can run it: the prefix, no line
      terminator after it, and a slash with at least one character on each
      side. */
  predicate IsGithubRepoUrl(s: string)
  {
    && |GithubPrefix| <= |s| && s[..|GithubPrefix|] == GithubPrefix
    && IsLine(s[|GithubPrefix|..])
    && exists k :: |GithubPrefix| < k < |s| - 1 && s[k] == '/'
  }

  /** The check accepts exactly the strings the regular expression
      matches. */
  lemma GithubRepoUrlMatchesPattern(s: string)
    ensures IsGithubRepoUrl(s) <==> MatchesRepoPattern(s)
  {
    var n := |GithubPrefix|;
    if IsGithubRepoUrl(s) {
      var k :| n < k < |s| - 1 && s[k] == '/';
      var owner, name := s[n..k], s[k + 1..];
      assert forall i :: 0 <= i < |owner| ==> owner[i] == s[n..][i];
      assert forall i :: 0 <= i < |name| ==> name[i] == s[n..][i + (k + 1 - n)];
      assert s == s[..n] + owner + "/" + name;
      assert RepoParts(s, owner, name);
    }
    if MatchesRepoPattern(s) {
      var owner, name :| RepoParts(s, owner, name);
      var k := n + |owner|;
      assert s[k] == '/';
      assert s[..n] == GithubPrefix;
      assert s[n..] == owner + "/" + name;
      assert IsLine(s[n..]) by {
        forall i | 0 <= i < |s[n..]| ensures !IsLineTerminator(s[n..][i]) {
          if i < |owner| { assert s[n..][i] == owner[i]; }
          else if i > |owner| { assert s[n..][i] == name[i - |owner| - 1]; }
        }
      }
    }
  }

  /** `.+` accepts any character but a line terminator, so text after the
      repository name, shell syntax included, passes the check. */
  lemma PatternAdmitsTrailingText()
    ensures IsGithubRepoUrl("https://github.com/a/b; reboot")
    ensures MatchesRepoPattern("https://github.com/a/b; reboot")
  {
    var s := "https://github.com/a/b; reboot";
    assert s[..|GithubPrefix|] == GithubPrefix;
    assert s[20] == '/';
    GithubRepoUrlMatchesPattern(s);
  }

  /** The issues zod reports for the `repoUrl` string: both string checks
      run, so a value can fail both. `isUrl` is zod's URL check. */
  function StringIssues(url: string, isUrl: string -> bool): (issues: seq<Issue>)
    ensures issues == [] <==> isUrl(url) && IsGithubRepoUrl(url)
    ensures InvalidString(["repoUrl"], InvalidUrlMessage) in issues <==> !isUrl(url)
    ensures InvalidString(["repoUrl"], NotGithubMessage) in issues <==> !IsGithubRepoUrl(url)
  {
    (if isUrl(url) then [] else [InvalidString(["repoUrl"], InvalidUrlMessage)])
    + (if IsGithubRepoUrl(url) then [] else [InvalidString(["repoUrl"], NotGithubMessage)])
  }

  /** `startScanSchema.safeParse(body)`: the repository URL, or the issues. */
  function ValidateStartScan(body: Json, isUrl: string -> bool): (r: Result<string, seq<Issue>>)
    ensures r.Ok? <==> && body.JObj? && "repoUrl" in body.fields && body.fields["repoUrl"].JStr?
                       && isUrl(body.fields["repoUrl"].s) && IsGithubRepoUrl(body.fields["repoUrl"].s)
    ensures r.Ok? ==> r.value == body.fields["repoUrl"].s
    ensures r.Err? ==> r.error != []
  {
    match body
    case JObj(fields) =>
      var v: Option<Json> := if "repoUrl" in fields then Some(fields["repoUrl"]) else None;
      (match v
       case Some(JStr(url)) =>
         var issues := StringIssues(url, isUrl);
         if issues == [] then Ok(url) else Err(issues)
       case _ => Err([InvalidType(["repoUrl"], "string", ReceivedType(v))]))
    case _ => Err([InvalidType([], "object", ReceivedType(Some(body)))])
  }

  /** `error.flatten()`: messages about the body itself, and messages per
      field. */
  datatype Flattened = Flattened(formErrors: seq<string>, fieldErrors: map<string, seq<string>>)

  /** `error.flatten().formErrors`: the messages of the issues about the
      body itself, in order. */
  function FormErrors(issues: seq<Issue>): (r: seq<string>)
    ensures forall i :: 0 <= i < |issues| && issues[i].path == [] ==> IssueMessage(issues[i]) in r
    ensures forall m :: m in r ==> exists i :: 0 <= i < |issues| && issues[i].path == [] && IssueMessage(issues[i]) == m
    ensures |r| <= |issues|
  {
    if issues == [] then []
    else
      var rest := FormErrors(issues[1..]);
      assert forall i :: 1 <= i < |issues| ==> issues[1..][i - 1] == issues[i];
      if issues[0].path == [] then [IssueMessage(issues[0])] + rest else rest
  }

  /** Form errors are collected issue by issue: those of a concatenation
      are those of its parts, in order, one message per issue about the
      body. */
  lemma {:induction false} FormErrorsOfConcat(a: seq<Issue>, b: seq<Issue>)
    ensures FormErrors(a + b) == FormErrors(a) + FormErrors(b)
  {
    if a != [] {
      assert (a + b)[1..] == a[1..] + b;
      FormErrorsOfConcat(a[1..], b);
    } else {
      assert a + b == b;
    }
  }

  /** The key a flattened issue is filed under: the first element of its
      path, `None` for the body itself. */
  function FirstKey(issue: Issue): Option<string>
  {
    if issue.path == [] then None else Some(issue.path[0])
  }

  /** The messages of the issues filed under `key`, in order. */
  ghost function MessagesUnder(issues: seq<Issue>, key: Option<string>): seq<string>
  {
    if issues == [] then []
    else (if FirstKey(issues[0]) == key then [IssueMessage(issues[0])] else []) + MessagesUnder(issues[1..], key)
  }

  lemma {:induction false} MessagesUnderOfConcat(a: seq<Issue>, b: seq<Issue>, key: Option<string>)
    ensures MessagesUnder(a + b, key) == MessagesUnder(a, key) + MessagesUnder(b, key)
  {
    if a != [] {
      assert (a + b)[1..] == a[1..] + b;
      MessagesUnderOfConcat(a[1..], b, key);
    } else {
      assert a + b == b;
    }
  }

  /** What a field-error map lists under `key`: nothing when the key is
      absent. */
  function Lookup(m: map<string, seq<string>>, key: string): seq<string>
  {
    if key in m then m[key] else []
  }

  /** `error.flatten().fieldErrors`: each issue's message listed under the
      first key of its path, in order; no other keys. */
  function FieldErrors(issues: seq<Issue>): (r: map<string, seq<string>>)
    ensures forall i :: 0 <= i < |issues| && issues[i].path != [] ==>
              issues[i].path[0] in r && IssueMessage(issues[i]) in r[issues[i].path[0]]
    ensures forall key :: key in r ==> exists i :: 0 <= i < |issues| && issues[i].path != [] && issues[i].path[0] == key
    ensures forall key :: key in r ==> r[key] != []
  {
    if issues == [] then map[]
    else
      var init := issues[..|issues| - 1];
      var rest := FieldErrors(init);
      var last := issues[|issues| - 1];
      assert forall i :: 0 <= i < |init| ==> init[i] == issues[i];
      if last.path == [] then rest
      else
        var key := last.path[0];
        var before := if key in rest then rest[key] else [];
        rest[key := before + [IssueMessage(last)]]
  }

  /** The messages under `key` once one more issue is added. */
  lemma MessagesUnderSnoc(init: seq<Issue>, last: Issue, key: Option<string>)
    ensures MessagesUnder(init + [last], key)
            == MessagesUnder(init, key) + (if FirstKey(last) == key then [IssueMessage(last)] else [])
  {
    MessagesUnderOfConcat(init, [last], key);
    assert [last][1..] == [];
  }

  /** What a field lists once one more issue is added. */
  lemma FieldErrorsSnoc(init: seq<Issue>, last: Issue, key: string)
    ensures Lookup(FieldErrors(init + [last]), key)
            == Lookup(FieldErrors(init), key) + (if FirstKey(last) == Some(key) then [IssueMessage(last)] else [])
  {
    var issues := init + [last];
    assert issues[..|issues| - 1] == init;
  }

  /** Each field lists exactly the messages of the issues filed under it,
      in order, one per issue. */
  lemma {:induction false} FieldErrorsAreKeyed(issues: seq<Issue>, key: string)
    ensures Lookup(FieldErrors(issues), key) == MessagesUnder(issues, Some(key))
    decreases |issues|
  {
    if issues != [] {
      var init := issues[..|issues| - 1];
      var last := issues[|issues| - 1];
      assert issues == init + [last];
      FieldErrorsAreKeyed(init, key);
      MessagesUnderSnoc(init, last, Some(key));
      FieldErrorsSnoc(init, last, key);
    }
  }

  /** Form errors are the messages filed under no key. */
  lemma {:induction false} FormErrorsAreUnkeyed(issues: seq<Issue>)
    ensures FormErrors(issues) == MessagesUnder(issues, None)
  {
    if issues != [] {
      FormErrorsAreUnkeyed(issues[1..]);
    }
  }

  /** `error.flatten()`. */
  function Flatten(issues: seq<Issue>): Flattened
  {
    Flattened(FormErrors(issues), FieldErrors(issues))
  }
}
