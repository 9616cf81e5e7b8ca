/** The two texts the program makes of a path's interfaces, and the parsers that show that each of
    them determines the interfaces. */
module Printing {

  datatype PathInterface = PathInterface(ia: string, id: nat)

  // ---------------------------------------------------------------------------
  // Decimal numbers
  // ---------------------------------------------------------------------------

  predicate IsDigit(c: char) {
    '0' <= c <= '9'
  }

  function Decimal(n: nat): string {
    var last := '0' + (n % 10) as char;
    if n < 10 then [last] else Decimal(n / 10) + [last]
  }

  function Value(s: string): int {
    if s == "" then 0 else 10 * Value(s[..|s| - 1]) + (s[|s| - 1] as int - '0' as int)
  }

  lemma {:induction false} DecimalRoundTrip(n: nat)
    ensures Value(Decimal(n)) == n
    ensures Decimal(n) != "" && forall c <- Decimal(n) :: IsDigit(c)
  {
    var s := Decimal(n);
    if n >= 10 {
      DecimalRoundTrip(n / 10);
      assert s[..|s| - 1] == Decimal(n / 10);
    } else {
      assert s[..|s| - 1] == "";
    }
  }

  /** One more digit is one more decimal place. */
  lemma DecimalIsPositional(n: nat, digit: nat)
    requires digit < 10
    ensures Decimal(digit) == ["0123456789"[digit]]
    ensures n > 0 ==> Decimal(10 * n + digit) == Decimal(n) + ["0123456789"[digit]]
  {
    assert (10 * n + digit) / 10 == n && (10 * n + digit) % 10 == digit;
    assert "0123456789"[digit] == '0' + digit as char;
  }

  // ---------------------------------------------------------------------------
  // Printing
  // ---------------------------------------------------------------------------

  /** snet.PathInterface.String. */
  function Text(i: PathInterface): string {
    i.ia + "#" + Decimal(i.id)
  }

  /** strings.ReplaceAll of one character. */
  function ReplaceAll(s: string, c: char, d: char): string {
    seq(|s|, i requires 0 <= i < |s| => if s[i] == c then d else s[i])
  }

  function Join(parts: seq<string>, sep: char): string {
    if parts == [] then ""
    else if |parts| == 1 then parts[0]
    else parts[0] + [sep] + Join(parts[1..], sep)
  }

  function Texts(intfs: seq<PathInterface>): (r: seq<string>)
    ensures |r| == |intfs|
  {
    seq(|intfs|, i requires 0 <= i < |intfs| => Text(intfs[i]))
  }

  function Ids(intfs: seq<PathInterface>): (r: seq<string>)
    ensures |r| == |intfs|
  {
    seq(|intfs|, i requires 0 <= i < |intfs| => ReplaceAll(Text(intfs[i]), '#', '-'))
  }

  /** The text a path is identified by, before it is hashed. */
  function PathText(intfs: seq<PathInterface>): string {
    Join(Texts(intfs), '-')
  }

  /** The text paths are sorted by. */
  function SorterText(intfs: seq<PathInterface>): string {
    Join(Ids(intfs), ',')
  }

  lemma {:induction false} JoinAppend(parts: seq<string>, last: string, sep: char)
    ensures Join(parts + [last], sep) == if parts == [] then last else Join(parts, sep) + [sep] + last
  {
    var all := parts + [last];
    if |parts| == 0 {
      assert all == [last];
    } else {
      assert all[1..] == parts[1..] + [last];
      JoinAppend(parts[1..], last, sep);
      if |parts| > 1 {
        assert Join(all, sep) == parts[0] + [sep] + (Join(parts[1..], sep) + [sep] + last);
      }
    }
  }

  /** IdFromSnetPath. */
  method IdFromSnetPath(intfs: seq<PathInterface>) returns (s: string)
    ensures s == PathText(intfs)
  {
    s := "";
    for i := 0 to |intfs|
      invariant s == Join(Texts(intfs)[..i], '-') + if 0 < i < |intfs| then "-" else ""
    {
      assert Texts(intfs)[..i + 1] == Texts(intfs)[..i] + [Text(intfs[i])];
      JoinAppend(Texts(intfs)[..i], Text(intfs[i]), '-');
      s := s + Text(intfs[i]);
      if i < |intfs| - 1 {
        s := s + "-";
      }
    }
    assert Texts(intfs)[..|intfs|] == Texts(intfs);
  }

  /** InterfacesToIds. */
  method InterfacesToIds(intfs: seq<PathInterface>) returns (ids: seq<string>)
    ensures ids == Ids(intfs)
  {
    ids := [];
    for i := 0 to |intfs|
      invariant ids == Ids(intfs)[..i]
    {
      ids := ids + [ReplaceAll(Text(intfs[i]), '#', '-')];
    }
  }

  // ---------------------------------------------------------------------------
  // Parsing
  // ---------------------------------------------------------------------------

  /** The first index of `c`, or the length. */
  function IndexOf(s: string, c: char): (i: nat)
    ensures i <= |s|
  {
    if s == "" || s[0] == c then 0 else 1 + IndexOf(s[1..], c)
  }

  /** The last index of `c`, or the length if there is none. */
  function LastIndexOf(s: string, c: char): (i: nat)
    ensures i <= |s|
  {
    if s == "" then 0
    else if s[|s| - 1] == c then |s| - 1
    else
      var i := LastIndexOf(s[..|s| - 1], c);
      if i == |s| - 1 then |s| else i
  }

  lemma {:induction false} IndexOfFirst(a: string, c: char, b: string)
    requires c !in a
    ensures IndexOf(a + [c] + b, c) == |a|
    ensures IndexOf(a, c) == |a|
  {
    if a != "" {
      assert (a + [c] + b)[1..] == a[1..] + [c] + b;
      IndexOfFirst(a[1..], c, b);
    }
  }

  lemma {:induction false} LastIndexOfLast(a: string, c: char, b: string)
    requires c !in b
    ensures LastIndexOf(a + [c] + b, c) == |a|
  {
    var s := a + [c] + b;
    if b == "" {
      assert s[|s| - 1] == c;
    } else {
      assert s[..|s| - 1] == a + [c] + b[..|b| - 1];
      assert s[|s| - 1] == b[|b| - 1];
      LastIndexOfLast(a, c, b[..|b| - 1]);
    }
  }

  /** Read "isd-as#digits" up to the '-' behind the digits, and go on. */
  function ParsePathText(s: string): seq<PathInterface>
    decreases |s|
  {
    if s == "" then []
    else
      var i := IndexOf(s, '#');
      if i == |s| then []
      else
        var tail := s[i + 1..];
        var j := IndexOf(tail, '-');
        var value := Value(tail[..j]);
        [PathInterface(s[..i], if value < 0 then 0 else value)]
        + if j == |tail| then [] else ParsePathText(tail[j + 1..])
  }

  /** Read up to the next ',', and split that at its last '-'. */
  function ParseSorterText(s: string): seq<PathInterface>
    decreases |s|
  {
    if s == "" then []
    else
      var j := IndexOf(s, ',');
      [ParseId(s[..j])] + if j == |s| then [] else ParseSorterText(s[j + 1..])
  }

  function ParseId(part: string): PathInterface {
    var i := LastIndexOf(part, '-');
    var value := if i < |part| then Value(part[i + 1..]) else 0;
    PathInterface(part[..i], if value < 0 then 0 else value)
  }

  /** An ISD-AS text has neither a '#' nor a ','. */
  predicate Printable(intfs: seq<PathInterface>) {
    forall i <- intfs :: '#' !in i.ia && ',' !in i.ia
  }

  lemma DigitsHaveNoSeparators(n: nat)
    ensures Value(Decimal(n)) == n && Decimal(n) != ""
    ensures '-' !in Decimal(n) && '#' !in Decimal(n) && ',' !in Decimal(n)
  {
    DecimalRoundTrip(n);
  }

  /** One step of the parser, on a text cut at its first '#'. */
  lemma ParseStep(ia: string, tail: string)
    requires '#' !in ia
    ensures var j := IndexOf(tail, '-');
            var value := Value(tail[..j]);
            ParsePathText(ia + ['#'] + tail)
            == [PathInterface(ia, if value < 0 then 0 else value)]
               + if j == |tail| then [] else ParsePathText(tail[j + 1..])
  {
    var s := ia + ['#'] + tail;
    IndexOfFirst(ia, '#', tail);
    assert s[..|ia|] == ia && s[|ia| + 1..] == tail;
  }

  /** The parser reads one printed interface at the end of the text. */
  lemma ParseLast(x: PathInterface)
    requires '#' !in x.ia
    ensures ParsePathText(Text(x)) == [x]
  {
    var digits := Decimal(x.id);
    DigitsHaveNoSeparators(x.id);
    IndexOfFirst(digits, '-', "");
    ParseStep(x.ia, digits);
    hide ParsePathText; hide Decimal; hide Value; hide IndexOf;
    assert Text(x) == x.ia + ['#'] + digits && digits[..|digits|] == digits;
  }

  lemma CutAt(a: string, c: char, b: string)
    ensures (a + [c] + b)[..|a|] == a && (a + [c] + b)[|a| + 1..] == b
  {
  }

  lemma Regroup(ia: string, digits: string, rest: string)
    ensures (ia + "#" + digits) + "-" + rest == ia + ['#'] + (digits + ['-'] + rest)
  {
  }

  /** The parser reads one printed interface before a '-', and goes on behind it. */
  lemma ParseNext(x: PathInterface, rest: string)
    requires '#' !in x.ia
    ensures ParsePathText(Text(x) + "-" + rest) == [x] + ParsePathText(rest)
  {
    hide ParsePathText; hide Decimal; hide Value; hide IndexOf;
    var digits := Decimal(x.id);
    DigitsHaveNoSeparators(x.id);
    IndexOfFirst(digits, '-', rest);
    ParseStep(x.ia, digits + ['-'] + rest);
    CutAt(digits, '-', rest);
    Regroup(x.ia, digits, rest);
  }

  lemma RestPrintable(intfs: seq<PathInterface>)
    requires Printable(intfs) && intfs != []
    ensures '#' !in intfs[0].ia && ',' !in intfs[0].ia && Printable(intfs[1..])
  {
    assert intfs[0] in intfs;
    assert forall i <- intfs[1..] :: i in intfs;
  }

  lemma PathTextUnfolds(intfs: seq<PathInterface>)
    requires intfs != []
    ensures PathText(intfs) == Text(intfs[0]) + if |intfs| == 1 then "" else "-" + PathText(intfs[1..])
  {
    hide Text;
    assert Texts(intfs)[1..] == Texts(intfs[1..]);
  }

  lemma NothingDecodes()
    ensures ParsePathText(PathText([])) == []
  {
  }

  /** The path text can be read back. */
  lemma {:induction false} PathTextDecodes(intfs: seq<PathInterface>)
    requires Printable(intfs)
    ensures ParsePathText(PathText(intfs)) == intfs
    decreases |intfs|
  {
    hide ParsePathText; hide PathText; hide Text; hide Decimal;
    if intfs == [] {
      NothingDecodes();
    } else {
      var x, rest := intfs[0], intfs[1..];
      RestPrintable(intfs);
      PathTextUnfolds(intfs);
      assert intfs == [x] + rest;
      if rest == [] {
        ParseLast(x);
        assert Text(x) + "" == Text(x);
      } else {
        PathTextDecodes(rest);
        ParseNext(x, PathText(rest));
        assert Text(x) + "-" + PathText(rest) == Text(x) + ("-" + PathText(rest));
      }
    }
  }

  lemma Replaced(x: PathInterface)
    requires '#' !in x.ia
    ensures ReplaceAll(Text(x), '#', '-') == x.ia + ['-'] + Decimal(x.id)
  {
    DigitsHaveNoSeparators(x.id);
    var s, t := Text(x), x.ia + ['-'] + Decimal(x.id);
    forall i | 0 <= i < |s|
      ensures (if s[i] == '#' then '-' else s[i]) == t[i]
    {
      if i < |x.ia| {
        assert s[i] == x.ia[i];
      } else if i > |x.ia| {
        assert s[i] == Decimal(x.id)[i - |x.ia| - 1];
      }
    }
  }

  lemma IdDecodes(x: PathInterface)
    requires '#' !in x.ia && ',' !in x.ia
    ensures var part := ReplaceAll(Text(x), '#', '-');
            part != "" && ',' !in part && ParseId(part) == x
  {
    var digits := Decimal(x.id);
    DigitsHaveNoSeparators(x.id);
    Replaced(x);
    var part := x.ia + ['-'] + digits;
    LastIndexOfLast(x.ia, '-', digits);
    assert part[|x.ia| + 1..] == digits && part[..|x.ia|] == x.ia;
  }

  lemma SorterTextUnfolds(intfs: seq<PathInterface>)
    requires intfs != []
    ensures SorterText(intfs)
         == ReplaceAll(Text(intfs[0]), '#', '-') + if |intfs| == 1 then "" else "," + SorterText(intfs[1..])
  {
    hide Text; hide ReplaceAll;
    assert Ids(intfs)[1..] == Ids(intfs[1..]);
  }

  /** The sorter text can be read back. */
  lemma {:induction false} SorterTextDecodes(intfs: seq<PathInterface>)
    requires Printable(intfs)
    ensures ParseSorterText(SorterText(intfs)) == intfs
    decreases |intfs|
  {
    hide ParseSorterText; hide SorterText; hide Text; hide ReplaceAll; hide ParseId;
    if intfs == [] {
      NoIdsDecode();
    } else {
      var x, rest := intfs[0], intfs[1..];
      var part := ReplaceAll(Text(x), '#', '-');
      RestPrintable(intfs);
      SorterTextUnfolds(intfs);
      IdDecodes(x);
      ParseOneId(part, SorterText(rest));
      assert intfs == [x] + rest;
      if rest == [] {
        assert part + "" == part;
      } else {
        SorterTextDecodes(rest);
        assert part + "," + SorterText(rest) == part + ("," + SorterText(rest));
      }
    }
  }

  lemma NoIdsDecode()
    ensures ParseSorterText(SorterText([])) == []
  {
  }

  lemma ParseOneId(part: string, rest: string)
    requires part != "" && ',' !in part
    ensures ParseSorterText(part) == [ParseId(part)]
    ensures ParseSorterText(part + "," + rest) == [ParseId(part)] + ParseSorterText(rest)
  {
    IndexOfFirst(part, ',', rest);
    assert part[..|part|] == part;
    var s := part + [','] + rest;
    assert s == part + "," + rest;
    assert s[..|part|] == part && s[|part| + 1..] == rest;
  }

  /** Equal texts, of either kind, mean equal interfaces: both identify a path. */
  lemma TextsIdentify(a: seq<PathInterface>, b: seq<PathInterface>)
    requires Printable(a) && Printable(b)
    ensures PathText(a) == PathText(b) <==> a == b
    ensures SorterText(a) == SorterText(b) <==> a == b
  {
    PathTextDecodes(a);
    PathTextDecodes(b);
    SorterTextDecodes(a);
    SorterTextDecodes(b);
  }
}
