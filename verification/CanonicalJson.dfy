/**
 Canonical JSON text, from which digests are made. Objects are printed with their entries sorted by key,
 so the text does not depend on entry order; and apart from entry order different values print differently.
 The grammar is that of sections 4 to 7 of RFC 8259.
 */
module CanonicalJson {

  datatype Json =
    | Null
    | Bool(b: bool)
    | Number(n: int)
    | String(s: string)
    | Array(items: seq<Json>)
    | Object(entries: seq<(string, Json)>)

  type KeyOrder = (string, string) -> bool

  ghost predicate StrictTotal(before: KeyOrder) {
    && (forall a :: !before(a, a))
    && (forall a, b, c :: before(a, b) && before(b, c) ==> before(a, c))
    && (forall a, b :: a != b ==> before(a, b) || before(b, a))
  }

  // ---------------------------------------------------------------- strings and numbers

  function Hex(n: nat): char
    requires n < 16
  {
    if n < 10 then ('0' as int + n) as char else ('a' as int + n - 10) as char
  }

  /** The escapes a string needs: quote, backslash and the control characters. */
  function Escape(c: char): string {
    var n := c as int;
    if n == 34 then ['\\', '"']
    else if n == 92 then ['\\', '\\']
    else if n == 8 then ['\\', 'b']
    else if n == 9 then ['\\', 't']
    else if n == 10 then ['\\', 'n']
    else if n == 12 then ['\\', 'f']
    else if n == 13 then ['\\', 'r']
    else if n < 32 then ['\\', 'u', '0', '0', Hex(n / 16), Hex(n % 16)]
    else [c]
  }

  function EscapeAll(s: string): string {
    if s == "" then "" else Escape(s[0]) + EscapeAll(s[1..])
  }

  function Quote(s: string): string {
    "\"" + EscapeAll(s) + "\""
  }

  function Digits(n: nat): string {
    (if n < 10 then "" else Digits(n / 10)) + [('0' as int + n % 10) as char]
  }

  function PrintNumber(n: int): string {
    if n < 0 then "-" + Digits(-n) else Digits(n)
  }

  // ---------------------------------------------------------------- values

  function Join(parts: seq<string>): string {
    if parts == [] then "" else if |parts| == 1 then parts[0] else parts[0] + "," + Join(parts[1..])
  }

  function Insert(e: (string, Json), sorted: seq<(string, Json)>, before: KeyOrder): seq<(string, Json)> {
    if sorted == [] || !before(sorted[0].0, e.0) then [e] + sorted else [sorted[0]] + Insert(e, sorted[1..], before)
  }

  /** The entries sorted by key. */
  function Sort(entries: seq<(string, Json)>, before: KeyOrder): (r: seq<(string, Json)>) {
    if entries == [] then [] else Insert(entries[0], Sort(entries[1..], before), before)
  }

  lemma {:induction false} InsertMembers(e: (string, Json), sorted: seq<(string, Json)>, before: KeyOrder)
    ensures forall x :: x in Insert(e, sorted, before) <==> x == e || x in sorted
    ensures |Insert(e, sorted, before)| == |sorted| + 1
  {
    if sorted != [] && before(sorted[0].0, e.0) {
      InsertMembers(e, sorted[1..], before);
      assert sorted == [sorted[0]] + sorted[1..];
    }
  }

  lemma {:induction false} SortMembers(entries: seq<(string, Json)>, before: KeyOrder)
    ensures forall x :: x in Sort(entries, before) <==> x in entries
    ensures |Sort(entries, before)| == |entries|
  {
    if entries != [] {
      SortMembers(entries[1..], before);
      InsertMembers(entries[0], Sort(entries[1..], before), before);
      assert entries == [entries[0]] + entries[1..];
    }
  }

  function EntryText(key: string, valueText: string): string {
    Quote(key) + ":" + valueText
  }

  function Canonical(v: Json, before: KeyOrder): string
    decreases v
  {
    match v
    case Null => "null"
    case Bool(b) => if b then "true" else "false"
    case Number(n) => PrintNumber(n)
    case String(s) => Quote(s)
    case Array(items) =>
      "[" + Join(seq(|items|, i requires 0 <= i < |items| => Canonical(items[i], before))) + "]"
    case Object(entries) =>
      SortMembers(entries, before);
      var sorted := Sort(entries, before);
      "{" + Join(seq(|sorted|, i requires 0 <= i < |sorted| =>
                       (assert sorted[i] in entries; EntryText(sorted[i].0, Canonical(sorted[i].1, before))))) + "}"
  }

  function ItemTexts(items: seq<Json>, before: KeyOrder): (r: seq<string>)
    ensures |r| == |items|
  {
    seq(|items|, i requires 0 <= i < |items| => Canonical(items[i], before))
  }

  function EntryTexts(entries: seq<(string, Json)>, before: KeyOrder): (r: seq<string>)
    ensures |r| == |entries|
  {
    seq(|entries|, i requires 0 <= i < |entries| => EntryText(entries[i].0, Canonical(entries[i].1, before)))
  }

  lemma CanonicalShape(v: Json, before: KeyOrder)
    ensures v.Array? ==> Canonical(v, before) == "[" + Join(ItemTexts(v.items, before)) + "]"
    ensures v.Object? ==> Canonical(v, before) == "{" + Join(EntryTexts(Sort(v.entries, before), before)) + "}"
  {
    if v.Array? {
      assert ItemTexts(v.items, before)
             == seq(|v.items|, i requires 0 <= i < |v.items| => Canonical(v.items[i], before));
    }
    if v.Object? {
      SortMembers(v.entries, before);
      var sorted := Sort(v.entries, before);
      assert EntryTexts(sorted, before)
             == seq(|sorted|, i requires 0 <= i < |sorted| =>
                      (assert sorted[i] in v.entries; EntryText(sorted[i].0, Canonical(sorted[i].1, before))));
    }
  }

  // ---------------------------------------------------------------- sameness of values

  /** No object anywhere in the value has a key twice. */
  predicate WellFormed(v: Json)
    decreases v
  {
    match v
    case Array(items) => forall i :: 0 <= i < |items| ==> WellFormed(items[i])
    case Object(entries) =>
      && (forall i, j :: 0 <= i < j < |entries| ==> entries[i].0 != entries[j].0)
      && (forall i :: 0 <= i < |entries| ==> WellFormed(entries[i].1))
    case _ => true
  }

  /** Equal values, where the entries of an object may come in any order. */
  predicate Same(v: Json, w: Json)
    decreases v
  {
    match v
    case Array(items) =>
      && w.Array? && |items| == |w.items|
      && forall i :: 0 <= i < |items| ==> Same(items[i], w.items[i])
    case Object(entries) =>
      && w.Object? && |entries| == |w.entries|
      && forall i :: 0 <= i < |entries| ==>
           exists j :: 0 <= j < |w.entries| && entries[i].0 == w.entries[j].0 && Same(entries[i].1, w.entries[j].1)
    case _ => v == w
  }

  // ---------------------------------------------------------------- prefix-freeness

  /** What may follow a value inside canonical text. */
  predicate Delimited(rest: string) {
    rest == "" || rest[0] == ',' || rest[0] == ']' || rest[0] == '}'
  }

  /** Two texts that are told apart by what follows them only if they are the same. */
  ghost predicate PrefixFree(p: string, q: string) {
    forall x, y :: Delimited(x) && Delimited(y) && p + x == q + y ==> p == q
  }

  lemma SplitEqual(p: string, x: string, q: string, y: string)
    requires p + x == q + y && |p| == |q|
    ensures p == q && x == y
  {
    assert p == (p + x)[..|p|] && q == (q + y)[..|q|];
    assert x == (p + x)[|p|..] && y == (q + y)[|q|..];
  }

  lemma HexInjective(m: nat, n: nat)
    requires m < 16 && n < 16 && Hex(m) == Hex(n)
    ensures m == n
  {
  }

  lemma EscapeUnique(c: char, d: char, p: string, q: string)
    requires Escape(c) + p == Escape(d) + q
    ensures c == d && p == q
  {
    var s := Escape(c) + p;
    assert s[0] == Escape(c)[0] == Escape(d)[0];
    if |Escape(c)| >= 2 && |Escape(d)| >= 2 {
      assert s[1] == Escape(c)[1] == Escape(d)[1];
      if |Escape(c)| == 6 && |Escape(d)| == 6 {
        assert s[4] == Escape(c)[4] == Escape(d)[4];
        assert s[5] == Escape(c)[5] == Escape(d)[5];
        HexInjective((c as int) / 16, (d as int) / 16);
        HexInjective((c as int) % 16, (d as int) % 16);
      }
    }
    assert c == d;
    SplitEqual(Escape(c), p, Escape(d), q);
  }

  /** The inside of a quoted string, its closing quote, and what follows. */
  function Ended(s: string, rest: string): string {
    EscapeAll(s) + ("\"" + rest)
  }

  lemma EscapeStarts(c: char)
    ensures Escape(c) != "" && Escape(c)[0] != '"'
  {
  }

  lemma Associates(a: string, b: string, c: string)
    ensures (a + b) + c == a + (b + c)
  {
  }

  lemma EndedSplits(s: string, rest: string)
    ensures s == "" ==> Ended(s, rest) == "\"" + rest
    ensures s != "" ==> Ended(s, rest) == Escape(s[0]) + Ended(s[1..], rest)
    ensures Ended(s, rest) != "" && (Ended(s, rest)[0] == '"' <==> s == "")
  {
    if s != "" {
      EscapeStarts(s[0]);
      Associates(Escape(s[0]), EscapeAll(s[1..]), "\"" + rest);
    }
  }

  /** A quoted string ends where it says, whatever follows. */
  lemma {:induction false} EscapedUnique(s: string, t: string, x: string, y: string)
    requires Ended(s, x) == Ended(t, y)
    ensures s == t && x == y
    decreases |s|
  {
    EndedSplits(s, x);
    EndedSplits(t, y);
    if s == "" {
      assert x == ("\"" + x)[1..] && y == ("\"" + y)[1..];
    } else {
      EscapeUnique(s[0], t[0], Ended(s[1..], x), Ended(t[1..], y));
      EscapedUnique(s[1..], t[1..], x, y);
      assert s == [s[0]] + s[1..] && t == [t[0]] + t[1..];
    }
  }

  lemma QuoteUnique(s: string, t: string, x: string, y: string)
    requires Quote(s) + x == Quote(t) + y
    ensures s == t && x == y
  {
    assert (Quote(s) + x)[1..] == Ended(s, x);
    assert (Quote(t) + y)[1..] == Ended(t, y);
    EscapedUnique(s, t, x, y);
  }

  predicate Digit(c: char) {
    '0' <= c <= '9'
  }

  function DigitValue(c: char): nat
    requires Digit(c)
  {
    c as int - '0' as int
  }

  function Value(s: string): nat
    requires forall i :: 0 <= i < |s| ==> Digit(s[i])
  {
    if s == "" then 0 else 10 * Value(s[..|s| - 1]) + DigitValue(s[|s| - 1])
  }

  lemma {:induction false} DigitsShape(n: nat)
    ensures Digits(n) != "" && (forall i :: 0 <= i < |Digits(n)| ==> Digit(Digits(n)[i])) && Value(Digits(n)) == n
  {
    if n >= 10 {
      DigitsShape(n / 10);
      assert Digits(n)[..|Digits(n)| - 1] == Digits(n / 10);
    } else {
      assert Digits(n)[..0] == "";
    }
  }

  lemma DigitsStop(p: string, x: string, q: string, y: string)
    requires p + x == q + y && Delimited(x) && forall i :: 0 <= i < |q| ==> Digit(q[i])
    ensures |q| <= |p|
  {
    if |p| < |q| {
      var head, tail := q[..|p|], q[|p|..];
      assert head + (tail + y) == q + y;
      SplitEqual(p, x, head, tail + y);
    }
  }

  lemma DigitsEnd(m: nat, n: nat, x: string, y: string)
    requires Delimited(x) && Delimited(y) && Digits(m) + x == Digits(n) + y
    ensures m == n && x == y
  {
    DigitsShape(m);
    DigitsShape(n);
    DigitsStop(Digits(m), x, Digits(n), y);
    DigitsStop(Digits(n), y, Digits(m), x);
    SplitEqual(Digits(m), x, Digits(n), y);
  }

  lemma NumberStarts(n: int)
    ensures PrintNumber(n) != "" && (PrintNumber(n)[0] == '-' <==> n < 0)
    ensures PrintNumber(n)[0] == '-' || Digit(PrintNumber(n)[0])
  {
    DigitsShape(if n < 0 then -n else n);
    assert n >= 0 ==> Digit(PrintNumber(n)[0]);
  }

  lemma FirstCharacter(p: string, x: string, q: string, y: string)
    requires p + x == q + y && p != "" && q != ""
    ensures p[0] == q[0]
  {
    assert p[0] == (p + x)[0] && q[0] == (q + y)[0];
  }

  lemma {:induction false} AfterHead(c: char, p: string, x: string, q: string, y: string)
    requires ([c] + p) + x == ([c] + q) + y
    ensures p + x == q + y
  {
    assert (([c] + p) + x)[1..] == p + x;
    assert (([c] + q) + y)[1..] == q + y;
  }

  lemma NumberEnds(m: int, n: int, x: string, y: string)
    requires Delimited(x) && Delimited(y) && PrintNumber(m) + x == PrintNumber(n) + y
    ensures m == n && x == y
  {
    NumberStarts(m);
    NumberStarts(n);
    FirstCharacter(PrintNumber(m), x, PrintNumber(n), y);
    if m < 0 {
      AfterHead('-', Digits(-m), x, Digits(-n), y);
      DigitsEnd(-m, -n, x, y);
    } else {
      DigitsEnd(m, n, x, y);
    }
  }

  // ---------------------------------------------------------------- lists

  /** Parts that can be told apart wherever they stand in a list. */
  ghost predicate PartsApart(a: seq<string>, b: seq<string>) {
    && (forall i :: 0 <= i < |a| ==> a[i] != "" && !Delimited(a[i]))
    && (forall i :: 0 <= i < |b| ==> b[i] != "" && !Delimited(b[i]))
    && (forall i, j :: 0 <= i < |a| && 0 <= j < |b| ==> PrefixFree(a[i], b[j]))
  }

  /** What follows the first part of a joined and closed list. */
  function AfterFirst(parts: seq<string>, close: char, rest: string): string
    requires parts != []
  {
    if |parts| == 1 then [close] + rest else [','] + Closed(parts[1..], close, rest)
  }

  function Closed(parts: seq<string>, close: char, rest: string): string {
    Join(parts) + ([close] + rest)
  }

  lemma ClosedSplits(parts: seq<string>, close: char, rest: string)
    requires parts != []
    ensures Closed(parts, close, rest) == parts[0] + AfterFirst(parts, close, rest)
  {
  }

  lemma ClosedStarts(parts: seq<string>, close: char, rest: string)
    requires parts != [] ==> parts[0] != ""
    ensures Closed(parts, close, rest) != ""
    ensures Closed(parts, close, rest)[0] == if parts == [] then close else parts[0][0]
  {
  }

  /** A joined list that ends with a closing bracket determines its parts and what follows. */
  lemma {:induction false} JoinUnique(a: seq<string>, b: seq<string>, close: char, x: string, y: string)
    requires PartsApart(a, b) && (close == ']' || close == '}')
    requires Closed(a, close, x) == Closed(b, close, y)
    ensures a == b && x == y
    decreases |a|
  {
    ClosedStarts(a, close, x);
    ClosedStarts(b, close, y);
    if a == [] {
      assert x == Closed(a, close, x)[1..] && y == Closed(b, close, y)[1..];
    } else {
      ClosedSplits(a, close, x);
      ClosedSplits(b, close, y);
      assert PrefixFree(a[0], b[0]);
      SplitEqual(a[0], AfterFirst(a, close, x), b[0], AfterFirst(b, close, y));
      AfterFirstUnique(a, b, close, x, y);
    }
  }

  lemma {:induction false} AfterFirstUnique(a: seq<string>, b: seq<string>, close: char, x: string, y: string)
    requires PartsApart(a, b) && (close == ']' || close == '}') && a != [] && b != [] && a[0] == b[0]
    requires AfterFirst(a, close, x) == AfterFirst(b, close, y)
    ensures a == b && x == y
    decreases |a|, 0
  {
    var l, r := AfterFirst(a, close, x), AfterFirst(b, close, y);
    assert l[0] == (if |a| == 1 then close else ',') && r[0] == (if |b| == 1 then close else ',');
    if |a| == 1 {
      assert x == l[1..] && y == r[1..];
    } else {
      assert l[1..] == Closed(a[1..], close, x) && r[1..] == Closed(b[1..], close, y);
      JoinUnique(a[1..], b[1..], close, x, y);
      assert a == [a[0]] + a[1..] && b == [b[0]] + b[1..];
    }
  }

  lemma TextStarts(v: Json, before: KeyOrder)
    ensures Canonical(v, before) != "" && !Delimited(Canonical(v, before))
    ensures match v
            case Null => Canonical(v, before)[0] == 'n'
            case Bool(b) => Canonical(v, before)[0] == if b then 't' else 'f'
            case Number(n) => Canonical(v, before)[0] == '-' || Digit(Canonical(v, before)[0])
            case String(_) => Canonical(v, before)[0] == '"'
            case Array(_) => Canonical(v, before)[0] == '['
            case Object(_) => Canonical(v, before)[0] == '{'
  {
    CanonicalShape(v, before);
    if v.Number? {
      NumberStarts(v.n);
    }
  }

  lemma EntryTextEnds(k: string, v: string, l: string, w: string, x: string, y: string)
    requires EntryText(k, v) + x == EntryText(l, w) + y
    ensures k == l && v + x == w + y
  {
    assert EntryText(k, v) + x == Quote(k) + (":" + v + x);
    assert EntryText(l, w) + y == Quote(l) + (":" + w + y);
    QuoteUnique(k, l, ":" + v + x, ":" + w + y);
    assert (":" + v + x)[1..] == v + x && (":" + w + y)[1..] == w + y;
  }

  /** The text of a value ends where the value ends. */
  lemma {:induction false} TextsArePrefixFree(v: Json, w: Json, before: KeyOrder)
    ensures PrefixFree(Canonical(v, before), Canonical(w, before))
    decreases v, 2
  {
    TextStarts(v, before);
    TextStarts(w, before);
    forall x, y | Delimited(x) && Delimited(y) && Canonical(v, before) + x == Canonical(w, before) + y
      ensures Canonical(v, before) == Canonical(w, before)
    {
      assert (Canonical(v, before) + x)[0] == Canonical(v, before)[0];
      assert (Canonical(w, before) + y)[0] == Canonical(w, before)[0];
      match v {
        case Null =>
        case Bool(_) =>
        case Number(n) => NumberEnds(n, w.n, x, y);
        case String(s) => QuoteUnique(s, w.s, x, y);
        case Array(_) => ArraysEnd(v, w, before, x, y);
        case Object(_) => ObjectsEnd(v, w, before, x, y);
      }
    }
  }

  lemma {:induction false} ArraysEnd(v: Json, w: Json, before: KeyOrder, x: string, y: string)
    requires v.Array? && w.Array? && Canonical(v, before) + x == Canonical(w, before) + y
    ensures ItemTexts(v.items, before) == ItemTexts(w.items, before) && x == y
    ensures Canonical(v, before) == Canonical(w, before)
    decreases v, 1
  {
    var a, b := ItemTexts(v.items, before), ItemTexts(w.items, before);
    ItemsApart(v, w, before);
    ArrayTail(v, before, x);
    ArrayTail(w, before, y);
    JoinUnique(a, b, ']', x, y);
    CanonicalShape(v, before);
    CanonicalShape(w, before);
  }

  lemma {:induction false} ItemsApart(v: Json, w: Json, before: KeyOrder)
    requires v.Array? && w.Array?
    ensures PartsApart(ItemTexts(v.items, before), ItemTexts(w.items, before))
    decreases v, 0
  {
    forall i | 0 <= i < |v.items| ensures Canonical(v.items[i], before) != "" && !Delimited(Canonical(v.items[i], before)) {
      TextStarts(v.items[i], before);
    }
    forall i | 0 <= i < |w.items| ensures Canonical(w.items[i], before) != "" && !Delimited(Canonical(w.items[i], before)) {
      TextStarts(w.items[i], before);
    }
    forall i, j | 0 <= i < |v.items| && 0 <= j < |w.items|
      ensures PrefixFree(Canonical(v.items[i], before), Canonical(w.items[j], before))
    {
      TextsArePrefixFree(v.items[i], w.items[j], before);
    }
  }

  lemma {:induction false} ObjectsEnd(v: Json, w: Json, before: KeyOrder, x: string, y: string)
    requires v.Object? && w.Object? && Canonical(v, before) + x == Canonical(w, before) + y
    ensures EntryTexts(Sort(v.entries, before), before) == EntryTexts(Sort(w.entries, before), before) && x == y
    ensures Canonical(v, before) == Canonical(w, before)
    decreases v, 1
  {
    var a, b := EntryTexts(Sort(v.entries, before), before), EntryTexts(Sort(w.entries, before), before);
    EntriesApart(v, w, before);
    ObjectTail(v, before, x);
    ObjectTail(w, before, y);
    JoinUnique(a, b, '}', x, y);
    CanonicalShape(v, before);
    CanonicalShape(w, before);
  }

  lemma ObjectTail(v: Json, before: KeyOrder, x: string)
    requires v.Object?
    ensures |Canonical(v, before)| > 0
    ensures (Canonical(v, before) + x)[1..] == Closed(EntryTexts(Sort(v.entries, before), before), '}', x)
  {
    CanonicalShape(v, before);
    var inner := Join(EntryTexts(Sort(v.entries, before), before));
    assert ("{" + inner + "}" + x)[1..] == inner + (['}'] + x);
  }

  lemma ArrayTail(v: Json, before: KeyOrder, x: string)
    requires v.Array?
    ensures |Canonical(v, before)| > 0
    ensures (Canonical(v, before) + x)[1..] == Closed(ItemTexts(v.items, before), ']', x)
  {
    CanonicalShape(v, before);
    var inner := Join(ItemTexts(v.items, before));
    assert ("[" + inner + "]" + x)[1..] == inner + ([']'] + x);
  }

  lemma {:induction false} EntriesApart(v: Json, w: Json, before: KeyOrder)
    requires v.Object? && w.Object?
    ensures PartsApart(EntryTexts(Sort(v.entries, before), before), EntryTexts(Sort(w.entries, before), before))
    decreases v, 0
  {
    SortMembers(v.entries, before);
    SortMembers(w.entries, before);
    var p, q := Sort(v.entries, before), Sort(w.entries, before);
    var a, b := EntryTexts(p, before), EntryTexts(q, before);
    assert forall i :: 0 <= i < |a| ==> a[i][0] == '"';
    assert forall i :: 0 <= i < |b| ==> b[i][0] == '"';
    forall i, j | 0 <= i < |p| && 0 <= j < |q| ensures PrefixFree(a[i], b[j]) {
      assert p[i] in v.entries && q[j] in w.entries;
      TextsArePrefixFree(p[i].1, q[j].1, before);
      forall s, t | Delimited(s) && Delimited(t) && a[i] + s == b[j] + t ensures a[i] == b[j] {
        EntryTextEnds(p[i].0, Canonical(p[i].1, before), q[j].0, Canonical(q[j].1, before), s, t);
      }
    }
  }

  // ---------------------------------------------------------------- injectivity

  lemma {:induction false} CanonicalInjective(v: Json, w: Json, before: KeyOrder)
    requires Canonical(v, before) == Canonical(w, before)
    ensures Same(v, w)
    decreases v, 1
  {
    TextStarts(v, before);
    TextStarts(w, before);
    match v {
      case Null =>
      case Bool(_) =>
      case Number(n) =>
        assert PrintNumber(n) + "" == PrintNumber(w.n) + "";
        NumberEnds(n, w.n, "", "");
      case String(s) =>
        assert Quote(s) + "" == Quote(w.s) + "";
        QuoteUnique(s, w.s, "", "");
      case Array(_) => ArraysInjective(v, w, before);
      case Object(_) => ObjectsInjective(v, w, before);
    }
  }

  lemma {:induction false} ArraysInjective(v: Json, w: Json, before: KeyOrder)
    requires v.Array? && w.Array? && Canonical(v, before) == Canonical(w, before)
    ensures Same(v, w)
    decreases v, 0
  {
    ArraysEnd(v, w, before, "", "");
    assert |v.items| == |ItemTexts(v.items, before)| == |ItemTexts(w.items, before)| == |w.items|;
    forall i | 0 <= i < |v.items| ensures Same(v.items[i], w.items[i]) {
      assert ItemTexts(v.items, before)[i] == ItemTexts(w.items, before)[i];
      CanonicalInjective(v.items[i], w.items[i], before);
    }
  }

  lemma {:induction false} ObjectsInjective(v: Json, w: Json, before: KeyOrder)
    requires v.Object? && w.Object? && Canonical(v, before) == Canonical(w, before)
    ensures Same(v, w)
    decreases v, 0
  {
    ObjectsEnd(v, w, before, "", "");
    SortMembers(v.entries, before);
    SortMembers(w.entries, before);
    var p, q := Sort(v.entries, before), Sort(w.entries, before);
    assert |p| == |EntryTexts(p, before)| == |EntryTexts(q, before)| == |q|;
    forall i | 0 <= i < |v.entries|
      ensures exists j :: 0 <= j < |w.entries| && v.entries[i].0 == w.entries[j].0 && Same(v.entries[i].1, w.entries[j].1)
    {
      assert v.entries[i] in p;
      var k :| 0 <= k < |p| && p[k] == v.entries[i];
      assert EntryTexts(p, before)[k] == EntryTexts(q, before)[k];
      EntryTextsMatch(p[k], q[k], before);
      CanonicalInjective(v.entries[i].1, q[k].1, before);
      assert q[k] in w.entries;
    }
  }

  lemma EntryTextsMatch(e: (string, Json), f: (string, Json), before: KeyOrder)
    requires EntryText(e.0, Canonical(e.1, before)) == EntryText(f.0, Canonical(f.1, before))
    ensures e.0 == f.0 && Canonical(e.1, before) == Canonical(f.1, before)
  {
    var a, b := Canonical(e.1, before), Canonical(f.1, before);
    assert EntryText(e.0, a) + "" == EntryText(f.0, b) + "";
    EntryTextEnds(e.0, a, f.0, b, "", "");
    assert a == a + "" && b == b + "";
  }

  // ---------------------------------------------------------------- independence of entry order

  ghost predicate KeysSorted(entries: seq<(string, Json)>, before: KeyOrder) {
    forall i, j :: 0 <= i < j < |entries| ==> before(entries[i].0, entries[j].0)
  }

  ghost predicate KeysDistinct(entries: seq<(string, Json)>) {
    forall i, j :: 0 <= i < j < |entries| ==> entries[i].0 != entries[j].0
  }

  lemma {:induction false} InsertSorts(e: (string, Json), sorted: seq<(string, Json)>, before: KeyOrder)
    requires StrictTotal(before) && KeysSorted(sorted, before)
    requires forall i :: 0 <= i < |sorted| ==> sorted[i].0 != e.0
    ensures KeysSorted(Insert(e, sorted, before), before)
  {
    if sorted != [] && before(sorted[0].0, e.0) {
      InsertSorts(e, sorted[1..], before);
      InsertMembers(e, sorted[1..], before);
      var rest := Insert(e, sorted[1..], before);
      forall k | 0 <= k < |rest| ensures before(sorted[0].0, rest[k].0) {
        assert rest[k] in rest;
        if rest[k] != e {
          var m :| 0 <= m < |sorted[1..]| && sorted[1..][m] == rest[k];
        }
      }
    } else if sorted != [] {
      forall k | 0 <= k < |sorted| ensures before(e.0, sorted[k].0) {
        assert before(e.0, sorted[0].0);
      }
    }
  }

  lemma {:induction false} SortSorts(entries: seq<(string, Json)>, before: KeyOrder)
    requires StrictTotal(before) && KeysDistinct(entries)
    ensures KeysSorted(Sort(entries, before), before)
  {
    if entries != [] {
      SortSorts(entries[1..], before);
      SortMembers(entries[1..], before);
      var rest := Sort(entries[1..], before);
      forall i | 0 <= i < |rest| ensures rest[i].0 != entries[0].0 {
        assert rest[i] in rest;
        var k :| 0 <= k < |entries[1..]| && entries[1..][k] == rest[i];
        assert entries[k + 1] == rest[i];
      }
      InsertSorts(entries[0], rest, before);
    }
  }

  predicate HasKey(entries: seq<(string, Json)>, key: string) {
    exists i :: 0 <= i < |entries| && entries[i].0 == key
  }

  /** Two sorted lists with the same keys list them in the same places. */
  lemma {:induction false} SortedKeysAgree(p: seq<(string, Json)>, q: seq<(string, Json)>, before: KeyOrder)
    requires StrictTotal(before) && KeysSorted(p, before) && KeysSorted(q, before) && |p| == |q|
    requires forall k :: HasKey(p, k) ==> HasKey(q, k)
    ensures forall i :: 0 <= i < |p| ==> p[i].0 == q[i].0
    decreases |p|
  {
    if p != [] {
      KeyCount(p, q, before);
      assert HasKey(q, q[0].0) && HasKey(p, p[0].0);
      var i :| 0 <= i < |q| && q[i].0 == p[0].0;
      var j :| 0 <= j < |p| && p[j].0 == q[0].0;
      assert p[0].0 == q[0].0;
      forall k | HasKey(p[1..], k) ensures HasKey(q[1..], k) {
        var m :| 0 <= m < |p[1..]| && p[1..][m].0 == k;
        assert p[m + 1].0 == k;
        assert HasKey(p, k);
        var n :| 0 <= n < |q| && q[n].0 == k;
        assert q[1..][n - 1].0 == k;
      }
      SortedKeysAgree(p[1..], q[1..], before);
      assert forall i :: 0 < i < |p| ==> p[i] == p[1..][i - 1] && q[i] == q[1..][i - 1];
    }
  }

  function KeySet(entries: seq<(string, Json)>): set<string> {
    set i | 0 <= i < |entries| :: entries[i].0
  }

  lemma {:induction false} KeySetSize(p: seq<(string, Json)>)
    requires KeysDistinct(p)
    ensures |KeySet(p)| == |p|
  {
    if p == [] {
      assert KeySet(p) == {};
    } else {
      var front := p[..|p| - 1];
      KeySetSize(front);
      assert KeySet(p) == KeySet(front) + {p[|p| - 1].0};
    }
  }

  /** Equally many distinct keys, one set inside the other: the sets are the same. */
  lemma KeyCount(p: seq<(string, Json)>, q: seq<(string, Json)>, before: KeyOrder)
    requires StrictTotal(before) && KeysSorted(p, before) && KeysSorted(q, before) && |p| == |q|
    requires forall k :: HasKey(p, k) ==> HasKey(q, k)
    ensures forall k :: HasKey(q, k) ==> HasKey(p, k)
  {
    KeySetSize(p);
    KeySetSize(q);
    forall k ensures k in KeySet(p) <==> HasKey(p, k) {
    }
    forall k ensures k in KeySet(q) <==> HasKey(q, k) {
    }
    assert KeySet(p) <= KeySet(q);
    assert |KeySet(q) - KeySet(p)| == |KeySet(q)| - |KeySet(p)|;
    assert KeySet(q) - KeySet(p) == {};
  }

  lemma {:induction false} SameTexts(v: Json, w: Json, before: KeyOrder)
    requires StrictTotal(before) && WellFormed(v) && WellFormed(w) && Same(v, w)
    ensures Canonical(v, before) == Canonical(w, before)
    decreases v
  {
    match v {
      case Array(items) =>
        CanonicalShape(v, before);
        CanonicalShape(w, before);
        forall i | 0 <= i < |items| ensures ItemTexts(items, before)[i] == ItemTexts(w.items, before)[i] {
          SameTexts(items[i], w.items[i], before);
        }
        assert ItemTexts(items, before) == ItemTexts(w.items, before);
      case Object(entries) => SameObjects(v, w, before);
      case _ =>
    }
  }

  lemma {:induction false} SameObjects(v: Json, w: Json, before: KeyOrder)
    requires StrictTotal(before) && v.Object? && WellFormed(v) && WellFormed(w) && Same(v, w)
    ensures Canonical(v, before) == Canonical(w, before)
    decreases v, 0
  {
    CanonicalShape(v, before);
    CanonicalShape(w, before);
    SortMembers(v.entries, before);
    SortMembers(w.entries, before);
    SortSorts(v.entries, before);
    SortSorts(w.entries, before);
    var p, q := Sort(v.entries, before), Sort(w.entries, before);
    forall k | HasKey(p, k) ensures HasKey(q, k) {
      var i :| 0 <= i < |p| && p[i].0 == k;
      var e := Partner(v, w, p[i]);
      var m :| 0 <= m < |q| && q[m] == e;
    }
    SortedKeysAgree(p, q, before);
    forall i | 0 <= i < |p| ensures EntryTexts(p, before)[i] == EntryTexts(q, before)[i] {
      assert p[i] in v.entries;
      var e := Partner(v, w, p[i]);
      var m :| 0 <= m < |q| && q[m] == e;
      assert m == i;
      SameTexts(p[i].1, q[i].1, before);
    }
    assert EntryTexts(p, before) == EntryTexts(q, before);
  }

  /** The entry of the other object that has the same key and the same value. */
  lemma Partner(v: Json, w: Json, e: (string, Json)) returns (f: (string, Json))
    requires v.Object? && WellFormed(v) && WellFormed(w) && Same(v, w) && e in v.entries
    ensures f in w.entries && f.0 == e.0 && Same(e.1, f.1) && WellFormed(e.1) && WellFormed(f.1)
  {
    var i :| 0 <= i < |v.entries| && v.entries[i] == e;
    var j :| 0 <= j < |w.entries| && v.entries[i].0 == w.entries[j].0 && Same(v.entries[i].1, w.entries[j].1);
    f := w.entries[j];
  }

  /** Canonical texts are equal exactly for values that differ at most in the order of object entries. */
  lemma CanonicalTextDecidesSameness(v: Json, w: Json, before: KeyOrder)
    requires StrictTotal(before) && WellFormed(v) && WellFormed(w)
    ensures Canonical(v, before) == Canonical(w, before) <==> Same(v, w)
  {
    if Same(v, w) {
      SameTexts(v, w, before);
    } else if Canonical(v, before) == Canonical(w, before) {
      CanonicalInjective(v, w, before);
    }
  }

  // ---------------------------------------------------------------- a key order

  /** Comparison character by character, the order of plain string comparison. */
  predicate LexBefore(a: string, b: string) {
    if b == "" then false
    else if a == "" then true
    else if a[0] != b[0] then a[0] < b[0]
    else LexBefore(a[1..], b[1..])
  }

  lemma {:induction false} LexIrreflexive(a: string)
    ensures !LexBefore(a, a)
  {
    if a != "" {
      LexIrreflexive(a[1..]);
    }
  }

  lemma {:induction false} LexTransitive(a: string, b: string, c: string)
    requires LexBefore(a, b) && LexBefore(b, c)
    ensures LexBefore(a, c)
  {
    if a != "" && a[0] == b[0] && b[0] == c[0] {
      LexTransitive(a[1..], b[1..], c[1..]);
    }
  }

  lemma {:induction false} LexTotal(a: string, b: string)
    requires a != b
    ensures LexBefore(a, b) || LexBefore(b, a)
  {
    if a != "" && b != "" && a[0] == b[0] {
      assert a == [a[0]] + a[1..] && b == [b[0]] + b[1..];
      LexTotal(a[1..], b[1..]);
    }
  }

  lemma LexIsStrictTotal()
    ensures StrictTotal(LexBefore)
  {
    forall a ensures !LexBefore(a, a) {
      LexIrreflexive(a);
    }
    forall a, b, c | LexBefore(a, b) && LexBefore(b, c) ensures LexBefore(a, c) {
      LexTransitive(a, b, c);
    }
    forall a, b | a != b ensures LexBefore(a, b) || LexBefore(b, a) {
      LexTotal(a, b);
    }
  }
}
