/** The text two effect sets are compared by, and why it decides whether they agree. */
module EffectText {
  import opened Json
  import opened Ordering
  import opened Replay
  import opened Source
  import opened StepModel
  import opened Text
  import opened Wrappers

  function Fired(effects: seq<ReplayEffect>): (pairs: seq<(string, Json)>)
    ensures |pairs| == |effects|
      && forall i | 0 <= i < |effects| :: pairs[i] == (effects[i].idemKey, effects[i].payload)
  {
    seq(|effects|, i requires 0 <= i < |effects| => (effects[i].idemKey, effects[i].payload))
  }

  // ---- The text an effect is compared by determines its key and payload ----

  function EffectLine(pair: (string, Json)): string { pair.0 + "|" + Print(pair.1) }

  /** Where a character of JSON text stands; a bar outside string literals is not JSON. */
  datatype Place = Outside | Inside | Escaped | Broken

  function Next(q: Place, c: char): Place
  {
    match q
    case Outside => if c == '\"' then Inside else if c == '\\' || c == '|' then Broken else Outside
    case Inside => if c == '\"' then Outside else if c == '\\' then Escaped else Inside
    case Escaped => if c == '|' then Broken else Inside
    case Broken => Broken
  }

  function Lex(q: Place, s: string): Place
    decreases |s|
  {
    if |s| == 0 then q else Lex(Next(q, s[0]), s[1..])
  }

  lemma {:induction false} LexAppend(q: Place, s: string, t: string)
    ensures Lex(q, s + t) == Lex(Lex(q, s), t)
    decreases |s|
  {
    if |s| == 0 {
      assert s + t == t;
    } else {
      assert (s + t)[1..] == s[1..] + t;
      LexAppend(Next(q, s[0]), s[1..], t);
    }
  }

  lemma {:induction false} LexBroken(s: string)
    ensures Lex(Broken, s) == Broken
  {
    if |s| > 0 { LexBroken(s[1..]); }
  }

  lemma {:induction false} LexPlain(q: Place, s: string)
    requires q == Outside || q == Inside
    requires forall i | 0 <= i < |s| :: s[i] != '\"' && s[i] != '\\' && s[i] != '|'
    ensures Lex(q, s) == q
  {
    if |s| > 0 { LexPlain(q, s[1..]); }
  }

  lemma LexEscapeChar(c: char)
    ensures Lex(Inside, EscapeChar(c)) == Inside
  {
    var e := EscapeChar(c);
    if |e| > 1 {
      assert Lex(Inside, e) == Lex(Escaped, e[1..]);
      assert e[1..][1..] == e[2..];
      LexPlain(Inside, e[2..]);
    }
  }

  lemma {:induction false} LexEscape(s: string)
    ensures Lex(Inside, Escape(s)) == Inside
  {
    if |s| > 0 {
      LexEscapeChar(s[0]);
      LexEscape(s[1..]);
      LexAppend(Inside, EscapeChar(s[0]), Escape(s[1..]));
    }
  }

  lemma LexStr(s: string)
    ensures Lex(Outside, PrintStr(s)) == Outside
  {
    LexEscape(s);
    LexAppend(Inside, Escape(s), "\"");
    assert PrintStr(s)[1..] == Escape(s) + "\"";
    assert Lex(Inside, "\"") == Outside by { assert "\""[1..] == ""; }
  }

  lemma LexInt(n: int)
    ensures Lex(Outside, PrintInt(n)) == Outside
  {
    LexPlain(Outside, PrintInt(n));
  }

  lemma {:induction false} LexPrint(j: Json)
    ensures Lex(Outside, Print(j)) == Outside
    decreases j, 1
  {
    match j
    case JNull => LexPlain(Outside, "null");
    case JBool(b) => LexPlain(Outside, Print(j));
    case JNum(n) => LexInt(n);
    case JStr(s) => LexStr(s);
    case JArr(items) =>
      LexItems(items);
      LexBraced("[", PrintItems(items), "]");
    case JObj(fields) =>
      LexFields(fields);
      LexBraced("{", PrintFields(fields), "}");
  }

  lemma LexBraced(a: string, x: string, b: string)
    requires |a| == 1 && |b| == 1 && a[0] != '\"' && a[0] != '\\' && a[0] != '|' && b[0] != '\"' && b[0] != '\\'
      && b[0] != '|'
    requires Lex(Outside, x) == Outside
    ensures Lex(Outside, a + x + b) == Outside
  {
    LexPlain(Outside, a);
    LexPlain(Outside, b);
    LexAppend(Outside, a, x);
    LexAppend(Outside, a + x, b);
  }

  lemma LexSeparated(x: string, y: string)
    requires Lex(Outside, x) == Outside && Lex(Outside, y) == Outside
    ensures Lex(Outside, x + "," + y) == Outside && Lex(Outside, x + ":" + y) == Outside
  {
    LexPlain(Outside, ",");
    LexPlain(Outside, ":");
    LexAppend(Outside, x, ",");
    LexAppend(Outside, x + ",", y);
    LexAppend(Outside, x, ":");
    LexAppend(Outside, x + ":", y);
  }

  lemma {:induction false} LexItems(items: seq<Json>)
    ensures Lex(Outside, PrintItems(items)) == Outside
    decreases items, 0
  {
    if |items| > 0 {
      LexPrint(items[0]);
      if |items| > 1 {
        LexItems(items[1..]);
        LexSeparated(Print(items[0]), PrintItems(items[1..]));
      }
    }
  }

  lemma {:induction false} LexField(f: (string, Json))
    ensures Lex(Outside, PrintField(f)) == Outside
    decreases f, 2
  {
    LexStr(f.0);
    LexPrint(f.1);
    LexSeparated(PrintStr(f.0), Print(f.1));
  }

  lemma {:induction false} LexFields(fields: seq<(string, Json)>)
    ensures Lex(Outside, PrintFields(fields)) == Outside
    decreases fields, 0
  {
    if |fields| > 0 {
      var f := fields[0];
      LexField(f);
      if |fields| > 1 {
        LexFields(fields[1..]);
        LexSeparated(PrintField(f), PrintFields(fields[1..]));
      }
    }
  }

  /** Read from inside a literal and from outside any, text cannot end outside both times. */
  lemma {:induction false} LexOpposite(s: string)
    ensures !(Lex(Outside, s) == Outside && Lex(Inside, s) == Outside)
    ensures !(Lex(Outside, s) == Inside && Lex(Inside, s) == Inside)
  {
    if |s| > 0 {
      LexOpposite(s[1..]);
      LexBroken(s[1..]);
    }
  }

  /** A bar leaves the text before it inside a literal, or broken. */
  lemma BarInside(front: string, back: string)
    requires Lex(Outside, front + "|" + back) == Outside
    ensures Lex(Inside, back) == Outside
  {
    assert front + "|" + back == front + ("|" + back);
    LexAppend(Outside, front, "|" + back);
    assert ("|" + back)[1..] == back;
    LexBroken(back);
  }

  /** What follows a bar in the text of a value is not itself the text of a value. */
  lemma NoValueAfterBar(p: Json, front: string, q: Json)
    ensures Print(p) != front + "|" + Print(q)
  {
    hide Print, Lex;
    LexPrint(p);
    LexPrint(q);
    LexOpposite(Print(q));
    if Print(p) == front + "|" + Print(q) { BarInside(front, Print(q)); }
  }

  /** Keys may hold bars, yet the line determines the key and the payload. */
  lemma EffectLineInjective(x: (string, Json), y: (string, Json))
    requires EffectLine(x) == EffectLine(y)
    ensures x == y
  {
    hide Print;
    if |x.0| < |y.0| {
      BarSplit(x, y);
    } else if |y.0| < |x.0| {
      BarSplit(y, x);
    } else {
      var k := EffectLine(x);
      assert x.0 == k[..|x.0|] && y.0 == k[..|x.0|];
      assert Print(x.1) == k[|x.0| + 1..] && Print(y.1) == k[|x.0| + 1..];
      PrintInjective(x.1, y.1);
    }
  }

  lemma BarSplit(x: (string, Json), y: (string, Json))
    requires |x.0| < |y.0|
    ensures EffectLine(x) != EffectLine(y)
  {
    hide Print;
    var k := EffectLine(y);
    if EffectLine(x) == k {
      var front := y.0[|x.0| + 1..];
      assert Print(x.1) == k[|x.0| + 1..];
      assert k[|x.0| + 1..] == front + "|" + Print(y.1);
      NoValueAfterBar(x.1, front, y.1);
    }
  }

  function EffectLines(pairs: seq<(string, Json)>): (lines: seq<string>)
    ensures |lines| == |pairs| && forall i | 0 <= i < |pairs| :: lines[i] == EffectLine(pairs[i])
  {
    if |pairs| == 0 then [] else [EffectLine(pairs[0])] + EffectLines(pairs[1..])
  }

  lemma {:induction false} LineCount(pairs: seq<(string, Json)>, x: (string, Json))
    ensures multiset(EffectLines(pairs))[EffectLine(x)] == multiset(pairs)[x]
  {
    if |pairs| > 0 {
      hide EffectLine;
      LineCount(pairs[1..], x);
      assert pairs == [pairs[0]] + pairs[1..];
      assert EffectLines(pairs) == [EffectLine(pairs[0])] + EffectLines(pairs[1..]);
      if EffectLine(pairs[0]) == EffectLine(x) { EffectLineInjective(pairs[0], x); }
    }
  }

  lemma LineOfNoPair(pairs: seq<(string, Json)>, l: string)
    requires forall x :: EffectLine(x) != l
    ensures l !in EffectLines(pairs)
  {
    hide EffectLine;
    forall line | line in EffectLines(pairs) ensures line != l {
      var i :| 0 <= i < |pairs| && EffectLines(pairs)[i] == line;
      assert EffectLine(pairs[i]) != l;
    }
  }

  /** The compared lines agree, counted, exactly when the (key, payload) pairs do. */
  lemma LinesDecide(a: seq<(string, Json)>, b: seq<(string, Json)>)
    ensures multiset(EffectLines(a)) == multiset(EffectLines(b)) <==> multiset(a) == multiset(b)
  {
    hide EffectLine, EffectLines;
    forall x ensures multiset(EffectLines(a))[EffectLine(x)] == multiset(a)[x] { LineCount(a, x); }
    forall x ensures multiset(EffectLines(b))[EffectLine(x)] == multiset(b)[x] { LineCount(b, x); }
    if multiset(EffectLines(a)) == multiset(EffectLines(b)) {
      forall x ensures multiset(a)[x] == multiset(b)[x] {
        assert multiset(EffectLines(a))[EffectLine(x)] == multiset(EffectLines(b))[EffectLine(x)];
      }
    }
    if multiset(a) == multiset(b) {
      forall l ensures multiset(EffectLines(a))[l] == multiset(EffectLines(b))[l] {
        if x :| EffectLine(x) == l {
          assert multiset(a)[x] == multiset(b)[x];
        } else {
          LineOfNoPair(a, l);
          LineOfNoPair(b, l);
        }
      }
    }
  }

  lemma LessIsTotal()
    ensures Total(Less)
  {
    forall x ensures !Less(x, x) { LessIrreflexive(x); }
    forall x, y ensures x == y || Less(x, y) || Less(y, x) { LessTotal(x, y); }
    forall x, y, z | Less(x, y) && Less(y, z) ensures Less(x, z) { LessTransitive(x, y, z); }
  }

  function Strings(lines: seq<string>): (items: seq<Json>)
    ensures |items| == |lines| && forall i | 0 <= i < |lines| :: items[i] == JStr(lines[i])
  {
    seq(|lines|, i requires 0 <= i < |lines| => JStr(lines[i]))
  }

  /** The text of the sorted lines that a comparison prints. */
  function SortedText(effects: seq<ReplayEffect>): string
  {
    Print(JArr(Strings(StableSort(EffectLines(Fired(effects)), Less))))
  }

  lemma SortedTextDecides(a: seq<ReplayEffect>, b: seq<ReplayEffect>)
    ensures SortedText(a) == SortedText(b) <==> multiset(Fired(a)) == multiset(Fired(b))
  {
    hide Print, StableSort, EffectLines;
    var la, lb := EffectLines(Fired(a)), EffectLines(Fired(b));
    LinesDecide(Fired(a), Fired(b));
    LessIsTotal();
    SortedEqual(la, lb, Less);
    var sa, sb := StableSort(la, Less), StableSort(lb, Less);
    if SortedText(a) == SortedText(b) {
      PrintInjective(JArr(Strings(sa)), JArr(Strings(sb)));
      assert |sa| == |Strings(sa)| == |Strings(sb)| == |sb|;
      forall i | 0 <= i < |sa| ensures sa[i] == sb[i] {
        assert JStr(sa[i]) == Strings(sa)[i] == Strings(sb)[i] == JStr(sb[i]);
      }
      assert sa == sb;
    }
  }
}
