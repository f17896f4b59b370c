/** internal/app/common/utils/render.go: `Render`, the counter-driven scanner
    that substitutes `{{.key}}` placeholders. Characters stand for bytes: the
    scanner compares byte offsets with the byte length, so only single-byte
    (ASCII) templates are modelled. */
module Render {
  import opened Common

  const Dot := '.'
  const Open := '{'
  const Close := '}'

  /** Anything but the three characters the scanner counts. */
  predicate Ordinary(c: char)
  {
    c != Dot && c != Open && c != Close
  }

  predicate AllOrdinary(s: string)
  {
    forall k :: 0 <= k < |s| ==> Ordinary(s[k])
  }

  /** `Render`'s result, or the slice-bounds panic (`template[i:j-1]` or
      `template[i:j-2]` with the low bound past the high one). */
  datatype Rendered = Text(s: string) | OutOfRange

  /** The loop variables: the result `s`, the pieces `t`, the start `i` of the
      current piece and the counts `l`, `r` of braces. */
  datatype Scanner = Scanner(s: string, t: seq<string>, i: nat, l: nat, r: nat)

  const Initial := Scanner("", [], 0, 0, 0)

  /** One iteration, at byte offset `j`; `None` is a panic. */
  function ScanAt(tpl: string, params: map<string, string>, st: Scanner, j: nat): (o: Option<Scanner>)
    requires j < |tpl| && st.i <= j
    ensures o.Some? ==> o.value.i <= j + 1
  {
    var c := tpl[j];
    if c == Open then Some(st.(l := st.l + 1))
    else if c == Close then
      if st.l == 2 && st.r + 1 == 2 then
        if st.i > j - 1 then None
        else
          var key := tpl[st.i..j - 1];
          Some(st.(t := if key in params then st.t + [params[key]] else st.t, l := 0, r := 0, i := j + 1))
      else Some(st.(r := st.r + 1))
    else if c == Dot then
      if st.l == 2 then
        if st.i > j - 2 then None
        else Some(st.(t := st.t + [tpl[st.i..j - 2]], i := j + 1))
      else Some(st)
    else
      Some(st.(l := if st.l == 1 then 0 else st.l,
               s := if j == |tpl| - 1 then Concat(st.t) + tpl[st.i..] else st.s))
  }

  /** The scan from offset `j` to the end. */
  function ScanFrom(tpl: string, params: map<string, string>, st: Scanner, j: nat): Option<Scanner>
    requires j <= |tpl| && st.i <= j
    decreases |tpl| - j
  {
    if j == |tpl| then Some(st)
    else
      match ScanAt(tpl, params, st, j)
      case None => None
      case Some(st') => ScanFrom(tpl, params, st', j + 1)
  }

  function RenderSpec(tpl: string, params: map<string, string>): Rendered
  {
    match ScanFrom(tpl, params, Initial, 0)
    case None => OutOfRange
    case Some(f) => Text(f.s)
  }

  /** `Render`: one pass over the template, the counters updated in place. */
  method Render(template: string, parameters: map<string, string>) returns (result: Rendered)
    ensures result == RenderSpec(template, parameters)
  {
    var s := "";
    var t: seq<string> := [];
    var i, l, r := 0, 0, 0;
    var j := 0;
    while j < |template|
      invariant 0 <= i <= j <= |template|
      invariant ScanFrom(template, parameters, Scanner(s, t, i, l, r), j) ==
                ScanFrom(template, parameters, Initial, 0)
    {
      var c := template[j];
      if c == Open {
        l := l + 1;
      } else if c == Close {
        r := r + 1;
        if l == 2 && r == 2 {
          if i > j - 1 {
            return OutOfRange;
          }
          var key := template[i..j - 1];
          if key in parameters {
            t := t + [parameters[key]];
          }
          l, r := 0, 0;
          i := j + 1;
        }
      } else if c == Dot {
        if l == 2 {
          if i > j - 2 {
            return OutOfRange;
          }
          t := t + [template[i..j - 2]];
          i := j + 1;
        }
      } else {
        if l == 1 {
          l := 0;
        }
        if j == |template| - 1 {
          s := Concat(t) + template[i..];
        }
      }
      j := j + 1;
    }
    result := Text(s);
  }

  // ---------------------------------------------------------------------------
  // What a template renders to

  /** `s` is only assigned while scanning the last byte, and only when that byte
      is ordinary: a template that is empty or ends in `{`, `}` or `.` renders to
      "" (when it does not panic). */
  lemma {:induction false} ResultOnlyAtLastByte(tpl: string, params: map<string, string>, st: Scanner, j: nat)
    requires j <= |tpl| && st.i <= j
    requires tpl == [] || !Ordinary(tpl[|tpl| - 1])
    ensures ScanFrom(tpl, params, st, j).Some? ==> ScanFrom(tpl, params, st, j).value.s == st.s
    decreases |tpl| - j
  {
    if j < |tpl| {
      var o := ScanAt(tpl, params, st, j);
      if o.Some? {
        assert o.value.s == st.s;
        ResultOnlyAtLastByte(tpl, params, o.value, j + 1);
      }
    }
  }

  lemma SpecialEndRendersEmpty(tpl: string, params: map<string, string>)
    requires tpl == [] || !Ordinary(tpl[|tpl| - 1])
    ensures RenderSpec(tpl, params) != Text("") ==> RenderSpec(tpl, params) == OutOfRange
    ensures tpl == [] ==> RenderSpec(tpl, params) == Text("")
  {
    ResultOnlyAtLastByte(tpl, params, Initial, 0);
  }

  /** Every `{` is followed by an ordinary byte, so no placeholder ever opens. */
  predicate NoPlaceholder(tpl: string)
  {
    forall k :: 0 <= k < |tpl| && tpl[k] == Open ==> k + 1 < |tpl| && Ordinary(tpl[k + 1])
  }

  lemma {:induction false} LiteralFrom(tpl: string, params: map<string, string>, st: Scanner, j: nat)
    requires 0 < j <= |tpl| || (j == 0 && st.l == 0)
    requires |tpl| > 0 && Ordinary(tpl[|tpl| - 1]) && NoPlaceholder(tpl)
    requires st.i == 0 && st.t == []
    requires j > 0 ==> st.l == (if tpl[j - 1] == Open then 1 else 0)
    ensures ScanFrom(tpl, params, st, j).Some?
    ensures j < |tpl| ==> ScanFrom(tpl, params, st, j).value.s == tpl
    decreases |tpl| - j
  {
    if j < |tpl| {
      var c := tpl[j];
      if c == Open && j > 0 {
        assert tpl[j - 1] != Open;
      }
      var st' := ScanAt(tpl, params, st, j).value;
      assert st'.i == 0 && st'.t == [];
      assert st'.l == (if c == Open then 1 else 0);
      LiteralFrom(tpl, params, st', j + 1);
      if j == |tpl| - 1 {
        assert st'.s == Concat([]) + tpl[0..];
        assert tpl[0..] == tpl;
      }
    }
  }

  /** A non-empty template with no placeholder that ends in an ordinary byte renders
      to itself: a lone `{` before an ordinary byte and a `.` outside `{{` are text. */
  lemma LiteralText(tpl: string, params: map<string, string>)
    requires |tpl| > 0 && Ordinary(tpl[|tpl| - 1]) && NoPlaceholder(tpl)
    ensures RenderSpec(tpl, params) == Text(tpl)
  {
    LiteralFrom(tpl, params, Initial, 0);
  }

  /** A text without `{`, `}` or `.` renders to itself. */
  lemma PlainText(tpl: string, params: map<string, string>)
    requires |tpl| > 0 && AllOrdinary(tpl)
    ensures RenderSpec(tpl, params) == Text(tpl)
  {
    LiteralText(tpl, params);
  }

  /** A run of ordinary bytes before the last one changes nothing while no single
      `{` is pending. */
  lemma {:induction false} OrdinaryRun(tpl: string, params: map<string, string>, st: Scanner, j: nat, k: nat)
    requires st.i <= j <= k < |tpl| && st.l != 1
    requires forall m :: j <= m < k ==> Ordinary(tpl[m])
    ensures ScanFrom(tpl, params, st, j) == ScanFrom(tpl, params, st, k)
    decreases k - j
  {
    if j < k {
      assert ScanAt(tpl, params, st, j) == Some(st);
      OrdinaryRun(tpl, params, st, j + 1, k);
    }
  }

  /** Ordinary bytes up to the end: the last one assigns the pieces and the rest. */
  lemma {:induction false} OrdinaryTail(tpl: string, params: map<string, string>, st: Scanner, j: nat)
    requires st.i <= j < |tpl| && st.l != 1
    requires forall m :: j <= m < |tpl| ==> Ordinary(tpl[m])
    ensures ScanFrom(tpl, params, st, j) == Some(st.(s := Concat(st.t) + tpl[st.i..]))
  {
    OrdinaryRun(tpl, params, st, j, |tpl| - 1);
    var last := st.(s := Concat(st.t) + tpl[st.i..]);
    assert ScanAt(tpl, params, st, |tpl| - 1) == Some(last);
  }

  /** The layout of `a{{.key}}b` with `|a| == n` and `|key| == m`. */
  predicate PlaceholderAt(tpl: string, n: nat, m: nat)
  {
    |tpl| > n + m + 5 &&
    (forall x :: 0 <= x < n ==> Ordinary(tpl[x])) &&
    tpl[n] == Open && tpl[n + 1] == Open && tpl[n + 2] == Dot &&
    (forall x :: n + 3 <= x < n + 3 + m ==> Ordinary(tpl[x])) &&
    tpl[n + 3 + m] == Close && tpl[n + 4 + m] == Close &&
    (forall x :: n + m + 5 <= x < |tpl| ==> Ordinary(tpl[x]))
  }

  /** Up to the `.`: the text before the placeholder becomes the first piece. */
  lemma PlaceholderOpens(tpl: string, params: map<string, string>, n: nat, m: nat)
    requires PlaceholderAt(tpl, n, m)
    ensures ScanFrom(tpl, params, Initial, 0) ==
            ScanFrom(tpl, params, Scanner("", [tpl[..n]], n + 3, 2, 0), n + 3)
  {
    OrdinaryRun(tpl, params, Initial, 0, n);
    var s1 := Scanner("", [], 0, 1, 0);
    var s2 := Scanner("", [], 0, 2, 0);
    var s3 := Scanner("", [tpl[..n]], n + 3, 2, 0);
    assert ScanAt(tpl, params, Initial, n) == Some(s1);
    assert ScanAt(tpl, params, s1, n + 1) == Some(s2);
    assert [] + [tpl[0..n]] == [tpl[..n]];
    assert ScanAt(tpl, params, s2, n + 2) == Some(s3);
    assert ScanFrom(tpl, params, Initial, n) == ScanFrom(tpl, params, s1, n + 1);
    assert ScanFrom(tpl, params, s1, n + 1) == ScanFrom(tpl, params, s2, n + 2);
  }

  /** Through the `}}`: the key is looked up and its value, if any, becomes a piece. */
  lemma PlaceholderCloses(tpl: string, params: map<string, string>, n: nat, m: nat, t: seq<string>)
    requires PlaceholderAt(tpl, n, m)
    ensures var key := tpl[n + 3..n + 3 + m];
            ScanFrom(tpl, params, Scanner("", t, n + 3, 2, 0), n + 3) ==
            ScanFrom(tpl, params, Scanner("", if key in params then t + [params[key]] else t, n + m + 5, 0, 0), n + m + 5)
  {
    var key := tpl[n + 3..n + 3 + m];
    var s3 := Scanner("", t, n + 3, 2, 0);
    OrdinaryRun(tpl, params, s3, n + 3, n + 3 + m);
    var s4 := Scanner("", t, n + 3, 2, 1);
    var s5 := Scanner("", if key in params then t + [params[key]] else t, n + m + 5, 0, 0);
    assert ScanAt(tpl, params, s3, n + 3 + m) == Some(s4);
    assert tpl[n + 3..n + 4 + m - 1] == key;
    assert ScanAt(tpl, params, s4, n + 4 + m) == Some(s5);
    assert ScanFrom(tpl, params, s3, n + 3 + m) == ScanFrom(tpl, params, s4, n + 4 + m);
  }

  /** `a{{.key}}b`: the placeholder is replaced by the parameter, or dropped when
      the key is missing; the text around it is kept. */
  lemma Placeholder(a: string, key: string, b: string, params: map<string, string>)
    requires AllOrdinary(a) && AllOrdinary(key) && AllOrdinary(b) && |b| > 0
    ensures RenderSpec(a + "{{." + key + "}}" + b, params) ==
            Text(a + (if key in params then params[key] else "") + b)
  {
    var tpl := a + "{{." + key + "}}" + b;
    var n := |a|;
    var m := |key|;
    assert tpl[..n] == a;
    assert tpl[n + 3..n + 3 + m] == key;
    assert tpl[n + m + 5..] == b;
    assert PlaceholderAt(tpl, n, m) by {
      assert forall x :: 0 <= x < n ==> tpl[x] == a[x];
      assert forall x :: n + 3 <= x < n + 3 + m ==> tpl[x] == key[x - n - 3];
      assert forall x :: n + m + 5 <= x < |tpl| ==> tpl[x] == b[x - n - m - 5];
    }
    PlaceholderOpens(tpl, params, n, m);
    PlaceholderCloses(tpl, params, n, m, [a]);
    var v := if key in params then params[key] else "";
    var t := if key in params then [a] + [params[key]] else [a];
    OrdinaryTail(tpl, params, Scanner("", t, n + m + 5, 0, 0), n + m + 5);
    assert Concat(t) == a + v by {
      assert Concat([a]) == a + Concat([]);
      ConcatAppend([a], v);
      if key !in params { assert a + "" == a; }
    }
  }

  /** As written: a second `.` right after `{{.` slices `template[i:j-2]` with the low
      bound past the high one, and the scan panics. */
  lemma DoubleDotPanics(params: map<string, string>)
    ensures RenderSpec("{{..x", params) == OutOfRange
  {
    var tpl := "{{..x";
    var s1 := Scanner("", [], 0, 1, 0);
    var s2 := Scanner("", [], 0, 2, 0);
    var s3 := Scanner("", [""], 3, 2, 0);
    assert ScanAt(tpl, params, Initial, 0) == Some(s1);
    assert ScanAt(tpl, params, s1, 1) == Some(s2);
    assert tpl[0..0] == "" && [] + [""] == [""];
    assert tpl[0] == Open && tpl[1] == Open && tpl[2] == Dot && tpl[3] == Dot;
    assert ScanAt(tpl, params, s2, 2) == Some(s3);
    assert ScanAt(tpl, params, s3, 3) == None;
    assert ScanFrom(tpl, params, s2, 2) == None;
  }
}
