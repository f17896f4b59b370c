/** internal/app/nginless/router.go: the action-string parser, the rule
    compiler and the first-match router. Regular expressions are not interpreted:
    a pattern is kept as its source text, compiling it is a `valid` predicate and
    matching it a `matches` predicate, both supplied by the caller. */
module Router {
  import opened Common
  import opened Http

  /** The YAML value under a rule's `rule` or `do` key: a string, a list, or anything else. */
  datatype Yaml = Str(s: string) | List(items: seq<Yaml>) | Other

  datatype Rule = Rule(condition: Yaml, test: string, do: Yaml)

  /** What a handler matches against: the host and URL, or one request header. */
  datatype Target = UrlTarget | HeaderTarget(name: string)

  datatype Step = Step(source: string, action: string, parameters: seq<string>)

  datatype Handler = Handler(patterns: seq<string>, steps: seq<Step>, target: Target)

  /** The value `Match` returns when nothing matches (`Handler{}`). */
  const NoHandler := Handler([], [], UrlTarget)

  /** The panics of `parse`: a pattern `MustCompile` rejects, a list element that is
      not a string, a `header.` test that does not split into two parts. */
  datatype ParseError = BadPattern(pattern: string) | NotAString | BadHeaderTest(test: string)

  datatype Result<T> = Ok(value: T) | Err(error: ParseError)

  // ---------------------------------------------------------------------------
  // parseDoString

  const SingleParameterDoes: seq<string> := ["json"]

  predicate SingleParameter(action: string)
  {
    action in SingleParameterDoes
  }

  /** `isSingleParameter`: a linear search of the single-parameter actions. */
  method IsSingleParameter(action: string) returns (r: bool)
    ensures r <==> SingleParameter(action)
  {
    var k := 0;
    while k < |SingleParameterDoes|
      invariant 0 <= k <= |SingleParameterDoes|
      invariant forall j :: 0 <= j < k ==> SingleParameterDoes[j] != action
    {
      if SingleParameterDoes[k] == action {
        return true;
      }
      k := k + 1;
    }
    return false;
  }

  /** The scanner's variables between two characters. */
  datatype Scan = Scan(bracketsFound: bool, action: string, t: string, parameters: seq<string>)

  const Start := Scan(false, "", "", [])

  /** One iteration of the scanning loop. */
  function ScanChar(st: Scan, c: char): Scan
  {
    if c == ' ' && !SingleParameter(st.action) then st
    else if c != '(' && c != ')' then
      if st.bracketsFound then
        if c == ',' && !SingleParameter(st.action) then st.(parameters := st.parameters + [st.t], t := "")
        else st.(t := st.t + [c])
      else st.(action := st.action + [c])
    else
      var ps := if c == ')' && |st.t| > 0 then st.parameters + [st.t] else st.parameters;
      st.(parameters := ps, bracketsFound := true)
  }

  function ScanAll(st: Scan, s: string): Scan
    decreases |s|
  {
    if s == [] then st else ScanAll(ScanChar(st, s[0]), s[1..])
  }

  /** The step that `parseDoString(s)` returns. */
  function ParseDo(s: string): Step
  {
    var f := ScanAll(Start, s);
    Step(s, f.action, f.parameters)
  }

  /** `parseDoString`: one pass over the characters of `s`. */
  method ParseDoString(s: string) returns (step: Step)
    ensures step == ParseDo(s)
    ensures step.source == s
  {
    var bracketsFound := false;
    var action := "";
    var parameters: seq<string> := [];
    var t := "";
    var i := 0;
    while i < |s|
      invariant 0 <= i <= |s|
      invariant ScanAll(Scan(bracketsFound, action, t, parameters), s[i..]) == ScanAll(Start, s)
    {
      assert s[i..][0] == s[i] && s[i..][1..] == s[i + 1..];
      var single := IsSingleParameter(action);
      if s[i] == ' ' && !single {
        i := i + 1;
        continue;
      }
      if s[i] != '(' && s[i] != ')' {
        if bracketsFound {
          if s[i] == ',' && !single {
            parameters := parameters + [t];
            t := "";
          } else {
            t := t + [s[i]];
          }
        } else {
          action := action + [s[i]];
        }
        i := i + 1;
        continue;
      }
      // Process last parameter.
      if s[i] == ')' && |t| > 0 {
        parameters := parameters + [t];
      }
      bracketsFound := true;
      i := i + 1;
    }
    step := Step(s, action, parameters);
  }

  // Reference definitions the scanner is compared with.

  function RemoveSpaces(s: string): string
    decreases |s|
  {
    if s == [] then "" else (if s[0] == ' ' then "" else [s[0]]) + RemoveSpaces(s[1..])
  }

  /** A trailing empty argument is not kept. */
  function DropEmptyLast(ps: seq<string>): seq<string>
  {
    if |ps| > 0 && ps[|ps| - 1] == "" then ps[..|ps| - 1] else ps
  }

  predicate NoBrackets(s: string)
  {
    '(' !in s && ')' !in s
  }

  predicate ScanHasNoBrackets(st: Scan)
  {
    NoBrackets(st.t) && forall k :: 0 <= k < |st.parameters| ==> NoBrackets(st.parameters[k])
  }

  lemma {:induction false} ScanAppend(st: Scan, a: string, b: string)
    ensures ScanAll(st, a + b) == ScanAll(ScanAll(st, a), b)
    decreases |a|
  {
    if a == [] {
      assert a + b == b;
    } else {
      assert (a + b)[0] == a[0] && (a + b)[1..] == a[1..] + b;
      assert ScanAll(st, a + b) == ScanAll(ScanChar(st, a[0]), a[1..] + b);
      ScanAppend(ScanChar(st, a[0]), a[1..], b);
    }
  }

  lemma ScanCons(st: Scan, c: char, s: string)
    ensures ScanAll(st, [c] + s) == ScanAll(ScanChar(st, c), s)
  {
    assert ([c] + s)[0] == c && ([c] + s)[1..] == s;
  }

  lemma {:induction false} ScanKeepsBracketsOut(st: Scan, s: string)
    requires ScanHasNoBrackets(st)
    ensures ScanHasNoBrackets(ScanAll(st, s))
    decreases |s|
  {
    if s != [] {
      ScanKeepsBracketsOut(ScanChar(st, s[0]), s[1..]);
    }
  }

  /** Neither `(` nor `)` is ever copied into a parameter. */
  lemma ParametersHaveNoBrackets(s: string)
    ensures forall k :: 0 <= k < |ParseDo(s).parameters| ==> NoBrackets(ParseDo(s).parameters[k])
  {
    ScanKeepsBracketsOut(Start, s);
  }

  /** Without parentheses every character but the skipped spaces goes to the action. */
  lemma {:induction false} ScanName(st: Scan, s: string)
    requires !st.bracketsFound
    requires NoBrackets(s)
    requires forall i :: 0 <= i < |s| && s[i] == ' ' ==> !SingleParameter(st.action + RemoveSpaces(s[..i]))
    ensures ScanAll(st, s) == st.(action := st.action + RemoveSpaces(s))
    decreases |s|
  {
    if s == [] {
      assert st.action + RemoveSpaces(s) == st.action;
    } else {
      var c := s[0];
      assert s[..0] == [];
      assert c != '(' && c != ')' by { assert c in s; }
      var st' := ScanChar(st, c);
      assert [c][1..] == [];
      assert RemoveSpaces([c]) == if c == ' ' then "" else [c];
      if c == ' ' {
        assert RemoveSpaces(s[..0]) == "";
        assert st.action + RemoveSpaces(s[..0]) == st.action;
        assert st' == st;
        assert st.action + "" == st.action;
      }
      assert st'.action == st.action + RemoveSpaces([c]);
      forall i | 0 <= i < |s[1..]| && s[1..][i] == ' '
        ensures !SingleParameter(st'.action + RemoveSpaces(s[1..][..i]))
      {
        assert s[..i + 1] == [c] + s[1..][..i];
        assert RemoveSpaces(s[..i + 1]) == RemoveSpaces([c]) + RemoveSpaces(s[1..][..i]) by {
          assert ([c] + s[1..][..i])[1..] == s[1..][..i];
        }
        assert st'.action + RemoveSpaces(s[1..][..i]) == st.action + (RemoveSpaces([c]) + RemoveSpaces(s[1..][..i]));
      }
      ScanName(st', s[1..]);
      assert RemoveSpaces(s) == RemoveSpaces([c]) + RemoveSpaces(s[1..]);
      assert st.action + RemoveSpaces(s) == st'.action + RemoveSpaces(s[1..]);
    }
  }

  /** A name without spaces or parentheses is appended to the action as it is. */
  lemma {:induction false} ScanPlainName(st: Scan, s: string)
    requires !st.bracketsFound
    requires NoBrackets(s) && ' ' !in s
    ensures ScanAll(st, s) == st.(action := st.action + s)
    decreases |s|
  {
    if s == [] {
      assert st.action + s == st.action;
    } else {
      assert s[0] in s;
      ScanPlainName(ScanChar(st, s[0]), s[1..]);
      assert st.action + [s[0]] + s[1..] == st.action + s;
    }
  }

  /** A string with no parentheses is all action name: spaces are dropped and there
      are no parameters, unless a space follows a prefix that reads `json` (then the
      space is kept, see `SpaceAfterSingleParameterIsKept`). */
  lemma NoParenthesesIsActionOnly(s: string)
    requires NoBrackets(s)
    requires forall i :: 0 <= i < |s| && s[i] == ' ' ==> !SingleParameter(RemoveSpaces(s[..i]))
    ensures ParseDo(s) == Step(s, RemoveSpaces(s), [])
  {
    forall i | 0 <= i < |s| && s[i] == ' '
      ensures !SingleParameter(Start.action + RemoveSpaces(s[..i]))
    {
      assert Start.action + RemoveSpaces(s[..i]) == RemoveSpaces(s[..i]);
    }
    ScanName(Start, s);
    assert Start.action + RemoveSpaces(s) == RemoveSpaces(s);
  }

  /** The scanner state once the space-free text `r` has been split at commas, starting
      from the pending text of `st`. */
  function ArgumentsAfter(st: Scan, r: string): Scan
  {
    var p := Split(st.t + r, ',');
    st.(parameters := st.parameters + p[..|p| - 1], t := p[|p| - 1])
  }

  /** The arguments of a multi-parameter action: spaces are skipped and every comma
      closes an argument, so the scanner's pending text and arguments follow `Split`. */
  lemma {:induction false} ScanArguments(st: Scan, body: string)
    requires st.bracketsFound && !SingleParameter(st.action)
    requires ',' !in st.t
    requires NoBrackets(body)
    ensures ScanAll(st, body) == ArgumentsAfter(st, RemoveSpaces(body))
    decreases |body|
  {
    if body == [] {
      assert st.t + RemoveSpaces(body) == st.t;
      SplitNoSep(st.t, ',');
    } else {
      var c := body[0];
      assert c != '(' && c != ')' by { assert c in body; }
      ScanArguments(ScanChar(st, c), body[1..]);
      ArgumentStep(st, c, RemoveSpaces(body[1..]));
    }
  }

  /** One character of a multi-parameter argument list moves the scanner to a state
      from which the rest splits to the same result. */
  lemma ArgumentStep(st: Scan, c: char, r: string)
    requires st.bracketsFound && !SingleParameter(st.action)
    requires ',' !in st.t && c != '(' && c != ')'
    ensures var st' := ScanChar(st, c);
            ',' !in st'.t && st'.bracketsFound && st'.action == st.action &&
            ArgumentsAfter(st', r) == ArgumentsAfter(st, (if c == ' ' then "" else [c]) + r)
  {
    if c == ' ' {
      assert ScanChar(st, c) == st;
      assert "" + r == r;
    } else if c == ',' {
      assert ScanChar(st, c) == st.(parameters := st.parameters + [st.t], t := "");
      CommaArguments(st, r);
    } else {
      assert ScanChar(st, c) == st.(t := st.t + [c]);
      PendingArguments(st, c, r);
    }
  }

  lemma CommaArguments(st: Scan, r: string)
    requires ',' !in st.t
    ensures ArgumentsAfter(st.(parameters := st.parameters + [st.t], t := ""), r) == ArgumentsAfter(st, [','] + r)
  {
    CommaSplit(st.t, r);
    assert "" + r == r;
  }

  lemma PendingArguments(st: Scan, c: char, r: string)
    ensures ArgumentsAfter(st.(t := st.t + [c]), r) == ArgumentsAfter(st, [c] + r)
  {
    assert (st.t + [c]) + r == st.t + ([c] + r);
  }

  /** A comma after comma-free text closes that text as one piece. */
  lemma CommaSplit(t: string, r: string)
    requires ',' !in t
    ensures var p := Split(t + ([','] + r), ',');
            var q := Split(r, ',');
            p[..|p| - 1] == [t] + q[..|q| - 1] && p[|p| - 1] == q[|q| - 1]
  {
    var cr := [','] + r;
    assert cr[0] == ',' && cr[1..] == r;
    SplitPrefix(t, cr, ',');
    assert Split(cr, ',') == [""] + Split(r, ',');
    assert t + "" == t;
  }

  /** The argument of a single-parameter action is copied verbatim, spaces and commas included. */
  lemma {:induction false} ScanVerbatim(st: Scan, body: string)
    requires st.bracketsFound && SingleParameter(st.action)
    requires NoBrackets(body)
    ensures ScanAll(st, body) == st.(t := st.t + body)
    decreases |body|
  {
    if body == [] {
      assert st.t + body == st.t;
    } else {
      assert body[0] != '(' && body[0] != ')' by { assert body[0] in body; }
      ScanVerbatim(ScanChar(st, body[0]), body[1..]);
      assert st.t + [body[0]] + body[1..] == st.t + body;
    }
  }

  /** `name(a, b, ...)` for a multi-parameter action: the action is the name and the
      parameters are the space-stripped body split at every comma, an empty last
      piece dropped (so `name()` has none and `name(a,,b)` keeps the empty middle one). */
  /** Scanning a plain name and `(` leaves the name as the action and opens the argument list. */
  lemma ScanOpen(name: string)
    requires ' ' !in name && NoBrackets(name)
    ensures ScanAll(Start, name + "(") == Scan(true, name, "", [])
  {
    ScanAppend(Start, name, "(");
    ScanPlainName(Start, name);
    assert "" + name == name;
    ScanCons(Scan(false, name, "", []), '(', []);
    assert ['('] + [] == "(";
  }

  /** The closing `)` keeps the pending argument unless it is empty. */
  lemma ScanClose(st: Scan, p: seq<string>)
    requires |p| >= 1 && st.bracketsFound
    requires st.parameters == p[..|p| - 1] && st.t == p[|p| - 1]
    ensures ScanAll(st, ")").parameters == DropEmptyLast(p)
    ensures ScanAll(st, ")").action == st.action
  {
    ScanCons(st, ')', []);
    assert [')'] + [] == ")";
    if |p[|p| - 1]| > 0 {
      assert p[..|p| - 1] + [p[|p| - 1]] == p;
    }
  }

  /** `name(a, b, ...)` for a multi-parameter action: the action is the name and the
      parameters are the space-stripped body split at every comma, an empty last
      piece dropped (so `name()` has none and `name(a,,b)` keeps the empty middle one). */
  lemma CallParameters(name: string, body: string)
    requires ' ' !in name && NoBrackets(name) && !SingleParameter(name)
    requires NoBrackets(body)
    ensures ParseDo(name + "(" + body + ")") ==
            Step(name + "(" + body + ")", name, DropEmptyLast(Split(RemoveSpaces(body), ',')))
  {
    var s := name + "(" + body + ")";
    var open := Scan(true, name, "", []);
    ScanOpen(name);
    var p := Split(RemoveSpaces(body), ',');
    var inside := open.(parameters := p[..|p| - 1], t := p[|p| - 1]);
    ScanAppend(Start, name + "(", body);
    ScanArguments(open, body);
    assert "" + RemoveSpaces(body) == RemoveSpaces(body);
    assert [] + p[..|p| - 1] == p[..|p| - 1];
    assert ScanAll(Start, name + "(" + body) == inside;
    ScanAppend(Start, name + "(" + body, ")");
    ScanClose(inside, p);
  }

  lemma {:induction false} RemoveSpacesAppend(a: string, b: string)
    ensures RemoveSpaces(a + b) == RemoveSpaces(a) + RemoveSpaces(b)
    decreases |a|
  {
    if a == [] {
      assert a + b == b;
    } else {
      assert (a + b)[0] == a[0] && (a + b)[1..] == a[1..] + b;
      RemoveSpacesAppend(a[1..], b);
    }
  }

  lemma {:induction false} RemoveSpacesNoSpace(s: string)
    requires ' ' !in s
    ensures RemoveSpaces(s) == s
    decreases |s|
  {
    if s != [] {
      assert s[0] in s;
      RemoveSpacesNoSpace(s[1..]);
      assert [s[0]] + s[1..] == s;
    }
  }

  /** `json(body)`: the whole body is the one parameter, spaces and commas kept. */
  lemma JsonParameter(body: string)
    requires NoBrackets(body)
    ensures ParseDo("json(" + body + ")") ==
            Step("json(" + body + ")", "json", if body == "" then [] else [body])
  {
    ScanAppend(Start, "json(" + body, ")");
    ScanAppend(Start, "json(", body);
    var open := ScanAll(Start, "json(");
    assert open == Scan(true, "json", "", []);
    ScanVerbatim(open, body);
    assert "" + body == body;
  }

  /** A plain argument: no spaces, commas or parentheses. */
  predicate PlainArgument(x: string)
  {
    ' ' !in x && ',' !in x && NoBrackets(x)
  }

  /** `balancing(a, b, c)`, the form of the example rule set: three addresses, the
      spaces after the commas stripped. */
  lemma BalancingArguments(a: string, b: string, c: string)
    requires PlainArgument(a) && PlainArgument(b) && PlainArgument(c) && c != ""
    ensures ParseDo("balancing(" + a + ", " + b + ", " + c + ")") ==
            Step("balancing(" + a + ", " + b + ", " + c + ")", "balancing", [a, b, c])
  {
    var body := a + ", " + b + ", " + c;
    assert "balancing(" + a + ", " + b + ", " + c + ")" == "balancing" + "(" + body + ")";
    assert NoBrackets(body);
    CallParameters("balancing", body);
    SpacedThree(a, b, c);
    assert DropEmptyLast([a, b, c]) == [a, b, c];
  }

  lemma SpacedThree(a: string, b: string, c: string)
    requires PlainArgument(a) && PlainArgument(b) && PlainArgument(c)
    ensures Split(RemoveSpaces(a + ", " + b + ", " + c), ',') == [a, b, c]
  {
    SpacedJoin(a, b, c);
    JoinThree(a, b, c);
    SplitJoin([a, b, c], ',');
  }

  lemma SpacedJoin(a: string, b: string, c: string)
    requires ' ' !in a && ' ' !in b && ' ' !in c
    ensures RemoveSpaces(a + ", " + b + ", " + c) == a + "," + b + "," + c
  {
    var tail := b + ", " + c;
    assert a + ", " + b + ", " + c == a + ", " + tail;
    RemoveSpacesAfterComma(a, tail);
    RemoveSpacesAfterComma(b, c);
    RemoveSpacesNoSpace(c);
    assert a + "," + (b + "," + c) == a + "," + b + "," + c;
  }

  lemma RemoveSpacesAfterComma(a: string, rest: string)
    requires ' ' !in a
    ensures RemoveSpaces(a + ", " + rest) == a + "," + RemoveSpaces(rest)
  {
    var sr := [' '] + rest;
    var cr := [','] + sr;
    assert a + ", " + rest == a + cr;
    RemoveSpacesAppend(a, cr);
    RemoveSpacesNoSpace(a);
    RemoveSpacesCons(' ', rest);
    RemoveSpacesCons(',', sr);
    assert "" + RemoveSpaces(rest) == RemoveSpaces(rest);
    assert a + [','] + RemoveSpaces(rest) == a + "," + RemoveSpaces(rest);
  }

  lemma RemoveSpacesCons(c: char, s: string)
    ensures RemoveSpaces([c] + s) == (if c == ' ' then "" else [c]) + RemoveSpaces(s)
  {
    assert ([c] + s)[0] == c && ([c] + s)[1..] == s;
  }

  lemma JoinThree(a: string, b: string, c: string)
    ensures Join([a, b, c], ',') == a + "," + b + "," + c
  {
    assert [a, b, c][1..] == [b, c] && [b, c][1..] == [c];
    assert Join([b, c], ',') == b + "," + c;
  }

  /** A JSON literal with commas and spaces stays one parameter. */
  lemma JsonExample()
    ensures ParseDo("json({\"a\":1, \"b\":[1,2]})") == Step("json({\"a\":1, \"b\":[1,2]})", "json", ["{\"a\":1, \"b\":[1,2]}"])
  {
    var body := "{\"a\":1, \"b\":[1,2]}";
    assert "json({\"a\":1, \"b\":[1,2]})" == "json(" + body + ")";
    JsonParameter(body);
  }

  /** An empty middle argument is kept as "". */
  lemma EmptyMiddleArgument(name: string, x: string, y: string)
    requires ' ' !in name && NoBrackets(name) && !SingleParameter(name)
    requires PlainArgument(x) && PlainArgument(y) && y != ""
    ensures ParseDo(name + "(" + x + ",," + y + ")").parameters == [x, "", y]
  {
    var body := x + ",," + y;
    assert name + "(" + x + ",," + y + ")" == name + "(" + body + ")";
    MiddleEmptySplit(x, y);
    CallParameters(name, body);
    assert DropEmptyLast([x, "", y]) == [x, "", y];
  }

  lemma NotInThree(a: string, b: string, c: string, ch: char)
    requires ch !in a && ch !in b && ch !in c
    ensures ch !in a + b + c
  {
  }

  lemma MiddleEmptySplit(x: string, y: string)
    requires PlainArgument(x) && PlainArgument(y)
    ensures NoBrackets(x + ",," + y)
    ensures Split(RemoveSpaces(x + ",," + y), ',') == [x, "", y]
  {
    var body := x + ",," + y;
    NotInThree(x, ",,", y, ' ');
    NotInThree(x, ",,", y, '(');
    NotInThree(x, ",,", y, ')');
    RemoveSpacesNoSpace(body);
    JoinThree(x, "", y);
    assert x + "," + "" + "," + y == body;
    SplitJoin([x, "", y], ',');
  }


  /** An empty trailing argument is dropped. */
  lemma EmptyLastArgument(name: string, x: string)
    requires ' ' !in name && NoBrackets(name) && !SingleParameter(name)
    requires PlainArgument(x)
    ensures ParseDo(name + "(" + x + ",)").parameters == [x]
  {
    var body := x + ",";
    assert name + "(" + x + ",)" == name + "(" + body + ")";
    assert NoBrackets(body) && ' ' !in body;
    CallParameters(name, body);
    RemoveSpacesNoSpace(body);
    assert Join([x, ""], ',') == body by {
      assert [x, ""][1..] == [""];
    }
    SplitJoin([x, ""], ',');
    assert [x, ""][..1] == [x];
  }

  /** Empty parentheses give no parameters. */
  lemma NoArguments(name: string)
    requires ' ' !in name && NoBrackets(name) && !SingleParameter(name)
    ensures ParseDo(name + "()").parameters == []
  {
    assert name + "()" == name + "(" + "" + ")";
    CallParameters(name, "");
    assert RemoveSpaces("") == "";
  }

  /** As written: once the action reads a single-parameter name such as `json`, a
      following space is not skipped but becomes part of the action, so `json (...)`
      is not a single-parameter action. */
  lemma SpaceAfterSingleParameterIsKept(name: string, x: string)
    requires SingleParameter(name) && NoBrackets(name + x) && ' ' !in name && ' ' !in x
    ensures ParseDo(name + [' '] + x).action == name + [' '] + x
  {
    assert name + [' '] + x == name + ([' '] + x);
    ScanAppend(Start, name, [' '] + x);
    assert NoBrackets(name) && NoBrackets(x) by {
      assert forall ch :: ch in name || ch in x ==> ch in name + x;
    }
    ScanPlainName(Start, name);
    assert "" + name == name;
    var st := Scan(false, name, "", []);
    ScanCons(st, ' ', x);
    ScanPlainName(ScanChar(st, ' '), x);
  }

  /** As written: `)` does not clear the pending argument, so text after a closing
      parenthesis is appended to the previous argument's text. */
  lemma ClosingDoesNotReset()
    ensures ParseDo("a(x)(y)").parameters == ["x", "xy"]
  {
    var s := "a(x)(y)";
    assert s == ['a'] + (['('] + (['x'] + ([')'] + (['('] + (['y'] + [')'])))));
    var s1 := ScanChar(Start, 'a');
    var s2 := ScanChar(s1, '(');
    var s3 := ScanChar(s2, 'x');
    var s4 := ScanChar(s3, ')');
    var s5 := ScanChar(s4, '(');
    var s6 := ScanChar(s5, 'y');
    var s7 := ScanChar(s6, ')');
    assert s1 == Scan(false, "a", "", []);
    assert s2 == Scan(true, "a", "", []);
    assert s3 == Scan(true, "a", "x", []);
    assert s4 == Scan(true, "a", "x", ["x"]);
    assert s5 == s4;
    assert s6 == Scan(true, "a", "xy", ["x"]);
    assert s7 == Scan(true, "a", "xy", ["x", "xy"]);
    ScanCons(Start, 'a', ['('] + (['x'] + ([')'] + (['('] + (['y'] + [')'])))));
    ScanCons(s1, '(', ['x'] + ([')'] + (['('] + (['y'] + [')']))));
    ScanCons(s2, 'x', [')'] + (['('] + (['y'] + [')'])));
    ScanCons(s3, ')', ['('] + (['y'] + [')']));
    ScanCons(s4, '(', ['y'] + [')']);
    ScanCons(s5, 'y', [')']);
    ScanCons(s6, ')', []);
    assert [')'] + [] == [')'];
    assert ScanAll(Start, s) == s7;
  }

  // ---------------------------------------------------------------------------
  // parse

  /** A result with `xs` put in front of its value. */
  function Prepend<T>(xs: seq<T>, r: Result<seq<T>>): Result<seq<T>>
  {
    match r
    case Ok(ys) => Ok(xs + ys)
    case Err(e) => Err(e)
  }

  lemma PrependTwice<T>(xs: seq<T>, ys: seq<T>, r: Result<seq<T>>)
    ensures Prepend(xs, Prepend(ys, r)) == Prepend(xs + ys, r)
  {
    if r.Ok? {
      assert xs + (ys + r.value) == (xs + ys) + r.value;
    }
  }

  /** The patterns of a list condition: one per element, in order. */
  function CompilePatternList(items: seq<Yaml>, valid: string -> bool): (r: Result<seq<string>>)
    ensures r.Ok? <==> forall k :: 0 <= k < |items| ==> items[k].Str? && valid(items[k].s)
    ensures r.Ok? ==> |r.value| == |items| && forall k :: 0 <= k < |items| ==> items[k] == Str(r.value[k])
    decreases |items|
  {
    if items == [] then Ok([])
    else if !items[0].Str? then Err(NotAString)
    else if !valid(items[0].s) then Err(BadPattern(items[0].s))
    else Prepend([items[0].s], CompilePatternList(items[1..], valid))
  }

  function CompileCondition(c: Yaml, valid: string -> bool): Result<seq<string>>
  {
    match c
    case Str(s) => if valid(s) then Ok([s]) else Err(BadPattern(s))
    case List(items) => CompilePatternList(items, valid)
    case Other => Ok([])
  }

  predicate HasHeaderPrefix(test: string)
  {
    |test| >= 7 && test[..7] == "header."
  }

  function CompileTarget(test: string): Result<Target>
  {
    if HasHeaderPrefix(test) then
      var t := Split(test, '.');
      if |t| != 2 then Err(BadHeaderTest(test)) else Ok(HeaderTarget(t[1]))
    else Ok(UrlTarget)
  }

  /** A `header.` test selects the named header exactly when there is no further dot;
      every other test selects the URL. */
  lemma TargetSelection(test: string)
    ensures !HasHeaderPrefix(test) ==> CompileTarget(test) == Ok(UrlTarget)
    ensures HasHeaderPrefix(test) ==>
              (CompileTarget(test).Ok? <==> '.' !in test[7..]) &&
              ('.' !in test[7..] ==> CompileTarget(test) == Ok(HeaderTarget(test[7..])))
  {
    if HasHeaderPrefix(test) {
      var name := test[7..];
      assert test == "header" + (['.'] + name);
      SplitPrefix("header", ['.'] + name, '.');
      var dn := ['.'] + name;
      assert dn[0] == '.' && dn[1..] == name;
      assert Split(dn, '.') == [""] + Split(name, '.');
      assert "header" + "" == "header";
      assert Split(test, '.') == ["header"] + Split(name, '.');
      SplitPieces(name, '.');
      CountZero(name, '.');
      if '.' !in name {
        SplitNoSep(name, '.');
      }
    }
  }

  lemma {:induction false} CountZero(s: string, c: char)
    ensures Count(s, c) == 0 <==> c !in s
    decreases |s|
  {
    if s != [] {
      CountZero(s[1..], c);
      assert s == [s[0]] + s[1..];
    }
  }

  /** The steps of a list `do`: one per element, in order. */
  function ParseStepList(does: seq<Yaml>): (r: Result<seq<Step>>)
    ensures r.Ok? <==> forall k :: 0 <= k < |does| ==> does[k].Str?
    ensures r.Ok? ==> |r.value| == |does| && forall k :: 0 <= k < |does| ==> r.value[k] == ParseDo(does[k].s)
    ensures r.Err? ==> r.error == NotAString
    decreases |does|
  {
    if does == [] then Ok([])
    else if !does[0].Str? then Err(NotAString)
    else
      match ParseStepList(does[1..])
      case Ok(steps) => Ok([ParseDo(does[0].s)] + steps)
      case Err(e) => Err(e)
  }

  function CompileSteps(d: Yaml): Result<seq<Step>>
  {
    match d
    case Str(s) => Ok([ParseDo(s)])
    case List(items) => ParseStepList(items)
    case Other => Ok([])
  }

  /** The handler one rule compiles to; panics come in source order (condition,
      then test, then do). */
  function CompileRule(rule: Rule, valid: string -> bool): Result<Handler>
  {
    match CompileCondition(rule.condition, valid)
    case Err(e) => Err(e)
    case Ok(patterns) =>
      match CompileTarget(rule.test)
      case Err(e) => Err(e)
      case Ok(target) =>
        match CompileSteps(rule.do)
        case Err(e) => Err(e)
        case Ok(steps) => Ok(Handler(patterns, steps, target))
  }

  /** All rules in order: the handlers line up with the rules, or the first panic. */
  function CompileRules(rules: seq<Rule>, valid: string -> bool): Result<seq<Handler>>
    decreases |rules|
  {
    if rules == [] then Ok([])
    else
      match CompileRule(rules[0], valid)
      case Err(e) => Err(e)
      case Ok(h) => Prepend([h], CompileRules(rules[1..], valid))
  }

  /** The handlers line up with the rules one to one. */
  lemma {:induction false} CompileRulesLineUp(rules: seq<Rule>, valid: string -> bool)
    ensures var r := CompileRules(rules, valid);
            (r.Ok? <==> forall k :: 0 <= k < |rules| ==> CompileRule(rules[k], valid).Ok?) &&
            (r.Ok? ==> |r.value| == |rules| &&
                       forall k :: 0 <= k < |rules| ==> CompileRule(rules[k], valid) == Ok(r.value[k]))
    decreases |rules|
  {
    if rules != [] {
      CompileRulesLineUp(rules[1..], valid);
      assert forall k :: 1 <= k < |rules| ==> rules[k] == rules[1..][k - 1];
    }
  }

  /** A failed compilation reports the error of the first rule that does not compile. */
  lemma {:induction false} CompileRulesFirstError(rules: seq<Rule>, valid: string -> bool)
    ensures var r := CompileRules(rules, valid);
            r.Err? ==> exists k :: 0 <= k < |rules| && CompileRule(rules[k], valid) == Err(r.error) &&
                                   forall j :: 0 <= j < k ==> CompileRule(rules[j], valid).Ok?
    decreases |rules|
  {
    var r := CompileRules(rules, valid);
    if rules != [] && r.Err? {
      if CompileRule(rules[0], valid).Err? {
        assert CompileRule(rules[0], valid) == Err(r.error);
      } else {
        CompileRulesFirstError(rules[1..], valid);
        var rest := CompileRules(rules[1..], valid);
        assert rest.Err? && rest.error == r.error;
        var k :| 0 <= k < |rules[1..]| && CompileRule(rules[1..][k], valid) == Err(rest.error) &&
                 forall j :: 0 <= j < k ==> CompileRule(rules[1..][j], valid).Ok?;
        assert rules[k + 1] == rules[1..][k];
        assert forall j :: 1 <= j < k + 1 ==> rules[j] == rules[1..][j - 1];
      }
    }
  }

  /** A string condition gives one pattern and a string `do` one step. */
  lemma SingleStringRule(pattern: string, test: string, action: string, valid: string -> bool)
    requires valid(pattern) && CompileTarget(test).Ok?
    ensures CompileRule(Rule(Str(pattern), test, Str(action)), valid) ==
            Ok(Handler([pattern], [ParseDo(action)], CompileTarget(test).value))
  {
  }

  /** `parseSteps`: each element must be a string. */
  method ParseSteps(does: seq<Yaml>) returns (r: Result<seq<Step>>)
    ensures r == ParseStepList(does)
  {
    var steps: seq<Step> := [];
    var k := 0;
    while k < |does|
      invariant 0 <= k <= |does|
      invariant forall j :: 0 <= j < k ==> does[j].Str?
      invariant |steps| == k && forall j :: 0 <= j < k ==> steps[j] == ParseDo(does[j].s)
    {
      if !does[k].Str? {
        return Err(NotAString);
      }
      var step := ParseDoString(does[k].s);
      steps := steps + [step];
      k := k + 1;
    }
    r := Ok(steps);
    SameStepList(does, r);
  }

  lemma SameStepList(does: seq<Yaml>, r: Result<seq<Step>>)
    requires r.Ok? && |r.value| == |does|
    requires forall j :: 0 <= j < |does| ==> does[j].Str? && r.value[j] == ParseDo(does[j].s)
    ensures r == ParseStepList(does)
  {
    var f := ParseStepList(does);
    assert f.Ok?;
    assert f.value == r.value;
  }

  /** One iteration of `parse`'s loop: condition, target, then steps. */
  method ParseRule(rule: Rule, valid: string -> bool) returns (r: Result<Handler>)
    ensures r == CompileRule(rule, valid)
  {
    var patterns: seq<string> := [];
    match rule.condition {
      case Str(s) =>
        if !valid(s) {
          return Err(BadPattern(s));
        }
        patterns := [s];
      case List(items) =>
        var k := 0;
        assert items[0..] == items;
        assert Prepend([], CompilePatternList(items, valid)) == CompilePatternList(items, valid) by {
          var r := CompilePatternList(items, valid);
          if r.Ok? { assert [] + r.value == r.value; }
        }
        while k < |items|
          invariant 0 <= k <= |items|
          invariant CompilePatternList(items, valid) == Prepend(patterns, CompilePatternList(items[k..], valid))
        {
          assert items[k..][0] == items[k] && items[k..][1..] == items[k + 1..];
          if !items[k].Str? {
            return Err(NotAString);
          }
          if !valid(items[k].s) {
            return Err(BadPattern(items[k].s));
          }
          PrependTwice(patterns, [items[k].s], CompilePatternList(items[k + 1..], valid));
          patterns := patterns + [items[k].s];
          k := k + 1;
        }
        assert items[k..] == [];
        assert patterns + [] == patterns;
      case Other =>
    }
    assert CompileCondition(rule.condition, valid) == Ok(patterns);
    var target: Target;
    if HasHeaderPrefix(rule.test) {
      var t := Split(rule.test, '.');
      if |t| != 2 {
        return Err(BadHeaderTest(rule.test));
      }
      target := HeaderTarget(t[1]);
    } else {
      target := UrlTarget;
    }
    assert CompileTarget(rule.test) == Ok(target);
    var steps: seq<Step> := [];
    match rule.do {
      case Str(s) =>
        var st := ParseSteps([rule.do]);
        assert [rule.do][1..] == [];
        assert [ParseDo(s)] + [] == [ParseDo(s)];
        assert ParseStepList([rule.do]) == Ok([ParseDo(s)]);
        steps := st.value;
      case List(items) =>
        var st := ParseSteps(items);
        if st.Err? {
          return Err(st.error);
        }
        steps := st.value;
      case Other =>
    }
    assert CompileSteps(rule.do) == Ok(steps);
    r := Ok(Handler(patterns, steps, target));
  }

  // ---------------------------------------------------------------------------
  // Match

  /** The string a handler's patterns are tried on. */
  function Subject(target: Target, req: Request): string
  {
    match target
    case UrlTarget => req.host + req.url
    case HeaderTarget(name) => HeaderGet(req.header, name)
  }

  predicate HandlerMatches(h: Handler, req: Request, matches: (string, string) -> bool)
  {
    exists p :: 0 <= p < |h.patterns| && matches(h.patterns[p], Subject(h.target, req))
  }

  /** The handler `Match` picks, on values: the first one with a matching pattern. */
  function Lookup(handlers: seq<Handler>, req: Request, matches: (string, string) -> bool): Option<Handler>
    decreases |handlers|
  {
    if handlers == [] then None
    else if HandlerMatches(handlers[0], req, matches) then Some(handlers[0])
    else Lookup(handlers[1..], req, matches)
  }

  /** `Lookup` finds the handler at `k` exactly when it is the first that matches. */
  lemma {:induction false} LookupFirst(handlers: seq<Handler>, req: Request, matches: (string, string) -> bool, k: nat)
    requires k < |handlers| && HandlerMatches(handlers[k], req, matches)
    requires forall j :: 0 <= j < k ==> !HandlerMatches(handlers[j], req, matches)
    ensures Lookup(handlers, req, matches) == Some(handlers[k])
    decreases k
  {
    if k > 0 {
      assert !HandlerMatches(handlers[0], req, matches);
      assert forall j :: 0 <= j < k - 1 ==> handlers[1..][j] == handlers[j + 1];
      LookupFirst(handlers[1..], req, matches, k - 1);
    }
  }

  /** `Lookup` finds nothing exactly when no handler matches. */
  lemma {:induction false} LookupNone(handlers: seq<Handler>, req: Request, matches: (string, string) -> bool)
    ensures Lookup(handlers, req, matches).None? <==>
            forall k :: 0 <= k < |handlers| ==> !HandlerMatches(handlers[k], req, matches)
    decreases |handlers|
  {
    if handlers != [] {
      LookupNone(handlers[1..], req, matches);
      assert forall k :: 1 <= k < |handlers| ==> handlers[1..][k - 1] == handlers[k];
    }
  }

  class Router {
    var rules: seq<Rule>
    var handlers: seq<Handler>

    /** `NewRouter` once the configuration is loaded, before `parse`. */
    constructor (rules: seq<Rule>)
      ensures this.rules == rules && handlers == []
    {
      this.rules := rules;
      handlers := [];
    }

    /** `parse`: one handler appended per rule, in rule order; a panic stops it. */
    method Parse(valid: string -> bool) returns (err: Option<ParseError>)
      modifies this
      ensures rules == old(rules)
      ensures err.None? <==> CompileRules(rules, valid).Ok?
      ensures err.None? ==> handlers == old(handlers) + CompileRules(rules, valid).value
      ensures err.Some? ==> err.value == CompileRules(rules, valid).error
    {
      var k := 0;
      ghost var added: seq<Handler> := [];
      assert rules[0..] == rules;
      assert Prepend([], CompileRules(rules, valid)) == CompileRules(rules, valid) by {
        var r := CompileRules(rules, valid);
        if r.Ok? { assert [] + r.value == r.value; }
      }
      while k < |rules|
        invariant 0 <= k <= |rules|
        invariant rules == old(rules)
        invariant handlers == old(handlers) + added
        invariant CompileRules(rules, valid) == Prepend(added, CompileRules(rules[k..], valid))
      {
        assert rules[k..][0] == rules[k] && rules[k..][1..] == rules[k + 1..];
        var h := ParseRule(rules[k], valid);
        if h.Err? {
          return Some(h.error);
        }
        handlers := handlers + [h.value];
        PrependTwice(added, [h.value], CompileRules(rules[k + 1..], valid));
        added := added + [h.value];
        k := k + 1;
      }
      assert rules[k..] == [];
      assert added + [] == added;
      return None;
    }

    /** `Match`: handlers in declaration order, each handler's patterns in order;
        the first pattern that matches decides. */
    method Match(req: Request, matches: (string, string) -> bool) returns (matched: bool, h: Handler)
      ensures matched <==> exists k :: 0 <= k < |handlers| && HandlerMatches(handlers[k], req, matches)
      ensures matched ==> exists k :: 0 <= k < |handlers| && h == handlers[k] &&
                                      HandlerMatches(handlers[k], req, matches) &&
                                      forall j :: 0 <= j < k ==> !HandlerMatches(handlers[j], req, matches)
      ensures !matched ==> h == NoHandler
      ensures matched <==> Lookup(handlers, req, matches).Some?
      ensures matched ==> Lookup(handlers, req, matches) == Some(h)
    {
      var k := 0;
      while k < |handlers|
        invariant 0 <= k <= |handlers|
        invariant forall j :: 0 <= j < k ==> !HandlerMatches(handlers[j], req, matches)
      {
        var v := handlers[k];
        var p := 0;
        while p < |v.patterns|
          invariant 0 <= p <= |v.patterns|
          invariant forall q :: 0 <= q < p ==> !matches(v.patterns[q], Subject(v.target, req))
        {
          var s := match v.target
            case UrlTarget => req.host + req.url
            case HeaderTarget(name) => HeaderGet(req.header, name);
          if matches(v.patterns[p], s) {
            assert s == Subject(v.target, req);
            assert HandlerMatches(handlers[k], req, matches);
            LookupFirst(handlers, req, matches, k);
            return true, v;
          }
          p := p + 1;
        }
        k := k + 1;
      }
      LookupNone(handlers, req, matches);
      return false, NoHandler;
    }
  }
}
