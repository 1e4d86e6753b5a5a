/** generateLineKey and the newly-formed-lines filter of handleSubmitFactor (App.tsx). */
module LineKeys {
  import opened Types

  function DigitChar(d: nat): char
    requires d < 10
  {
    "0123456789"[d]
  }

  predicate IsDigit(ch: char) {
    '0' <= ch <= '9'
  }

  /** The decimal digits of n, most significant first. */
  function NatToString(n: nat): (s: string)
    ensures |s| >= 1 && (n >= 10 ==> |s| >= 2)
    ensures forall k :: 0 <= k < |s| ==> IsDigit(s[k])
    decreases n
  {
    if n < 10 then [DigitChar(n)] else NatToString(n / 10) + [DigitChar(n % 10)]
  }

  /** JavaScript's `${n}` for an integer: its decimal digits, after a '-' when it is negative. */
  function IntToString(n: int): (s: string)
    ensures forall k :: 0 <= k < |s| ==> IsDigit(s[k]) || s[k] == '-'
  {
    if n < 0 then "-" + NatToString(-n) else NatToString(n)
  }

  function PlayerName(p: Player): (s: string)
    ensures ':' !in s
  {
    match p
    case Rouge => "Rouge"
    case Bleu => "Bleu"
    case Vert => "Vert"
  }

  /** `${r},${c}`. */
  function CoordString(x: Coord): (s: string)
    ensures ':' !in s
  {
    IntToString(x.r) + "," + IntToString(x.c)
  }

  /** The default order of Array.prototype.sort on strings: character by character, a proper prefix first. */
  predicate StrLe(a: string, b: string) {
    a == [] || (b != [] && (a[0] < b[0] || (a[0] == b[0] && StrLe(a[1..], b[1..]))))
  }

  lemma {:induction false} StrLeTotal(a: string, b: string)
    ensures StrLe(a, b) || StrLe(b, a)
  {
    if a != [] && b != [] && a[0] == b[0] {
      StrLeTotal(a[1..], b[1..]);
    }
  }

  lemma {:induction false} StrLeAntisymmetric(a: string, b: string)
    requires StrLe(a, b) && StrLe(b, a)
    ensures a == b
  {
    if a != [] && b != [] {
      StrLeAntisymmetric(a[1..], b[1..]);
      assert a == [a[0]] + a[1..] && b == [b[0]] + b[1..];
    }
  }

  /** `[s1, s2].sort()`: the two strings, smaller first. */
  function SortedPair(s1: string, s2: string): (pair: (string, string))
    ensures StrLe(pair.0, pair.1)
    ensures pair == (s1, s2) || pair == (s2, s1)
  {
    StrLeTotal(s1, s2);
    if StrLe(s1, s2) then (s1, s2) else (s2, s1)
  }

  /** Sorting makes the pair's order irrelevant. */
  lemma SortedPairSymmetric(s1: string, s2: string)
    ensures SortedPair(s1, s2) == SortedPair(s2, s1)
  {
    if StrLe(s1, s2) && StrLe(s2, s1) {
      StrLeAntisymmetric(s1, s2);
    }
  }

  function First(l: WinningLine): Coord
    requires |l.coords| > 0
  {
    l.coords[0]
  }

  function Last(l: WinningLine): Coord
    requires |l.coords| > 0
  {
    l.coords[|l.coords| - 1]
  }

  /** generateLineKey: the player and the two end cells, in sorted order. */
  function LineKey(l: WinningLine): string
    requires |l.coords| > 0
  {
    var sorted := SortedPair(CoordString(First(l)), CoordString(Last(l)));
    PlayerName(l.player) + ":" + sorted.0 + ":" + sorted.1
  }

  /** Two lines of the same player with the same end cells, in either order. */
  predicate SameEnds(l1: WinningLine, l2: WinningLine)
    requires |l1.coords| > 0 && |l2.coords| > 0
  {
    l1.player == l2.player &&
    ((First(l1) == First(l2) && Last(l1) == Last(l2)) || (First(l1) == Last(l2) && Last(l1) == First(l2)))
  }

  /** The key depends on nothing but the player and the unordered pair of end cells. */
  lemma LineKeyOfSameEnds(l1: WinningLine, l2: WinningLine)
    requires |l1.coords| > 0 && |l2.coords| > 0 && SameEnds(l1, l2)
    ensures LineKey(l1) == LineKey(l2)
  {
    SortedPairSymmetric(CoordString(First(l1)), CoordString(Last(l1)));
  }

  function Reverse(s: seq<Coord>): (r: seq<Coord>)
    ensures |r| == |s| && forall k :: 0 <= k < |s| ==> r[k] == s[|s| - 1 - k]
  {
    if s == [] then [] else [s[|s| - 1]] + Reverse(s[..|s| - 1])
  }

  /** A line read backwards has the same key. */
  lemma LineKeyReversed(l: WinningLine)
    requires |l.coords| > 0
    ensures LineKey(WinningLine(l.player, Reverse(l.coords))) == LineKey(l)
  {
    LineKeyOfSameEnds(WinningLine(l.player, Reverse(l.coords)), l);
  }

  lemma {:induction false} NatToStringInjective(m: nat, n: nat)
    requires NatToString(m) == NatToString(n)
    ensures m == n
    decreases m
  {
    if m >= 10 && n >= 10 {
      var sm, sn := NatToString(m), NatToString(n);
      assert sm[..|sm| - 1] == NatToString(m / 10) && sn[..|sn| - 1] == NatToString(n / 10);
      NatToStringInjective(m / 10, n / 10);
      assert DigitChar(m % 10) == sm[|sm| - 1] == sn[|sn| - 1] == DigitChar(n % 10);
    }
  }

  /** The string of n starts with '-' exactly when n is negative. */
  lemma IntToStringHead(n: int)
    ensures |IntToString(n)| > 0 && (IntToString(n)[0] == '-' <==> n < 0)
  {
    if n >= 0 {
      assert IsDigit(NatToString(n)[0]);
    }
  }

  lemma IntToStringInjective(m: int, n: int)
    requires IntToString(m) == IntToString(n)
    ensures m == n
  {
    IntToStringHead(m);
    IntToStringHead(n);
    if m < 0 && n < 0 {
      var sm, sn := NatToString(-m), NatToString(-n);
      assert sm == ("-" + sm)[1..] && sn == ("-" + sn)[1..];
      NatToStringInjective(-m, -n);
    } else if m >= 0 && n >= 0 {
      NatToStringInjective(m, n);
    }
  }

  /** In a, then sep, then b, the first sep sits right after a. */
  lemma SeparatorAt(a: string, b: string, sep: char)
    requires sep !in a
    ensures (a + [sep] + b)[|a|] == sep
    ensures forall k :: 0 <= k < |a| ==> (a + [sep] + b)[k] != sep
  {
    var x := a + [sep] + b;
    forall k | 0 <= k < |a| ensures x[k] != sep {
      assert x[k] == a[k];
    }
  }

  /** A string joined with a separator it does not contain can be split back uniquely. */
  lemma SplitAtSeparator(a: string, b: string, c: string, d: string, sep: char)
    requires sep !in a && sep !in c && a + [sep] + b == c + [sep] + d
    ensures a == c && b == d
  {
    SeparatorAt(a, b, sep);
    SeparatorAt(c, d, sep);
    var x := a + [sep] + b;
    if |a| == |c| {
      assert a == x[..|a|] == c;
      assert b == x[|a| + 1..] == d;
    }
  }

  lemma CoordStringInjective(x: Coord, y: Coord)
    requires CoordString(x) == CoordString(y)
    ensures x == y
  {
    assert ',' !in IntToString(x.r) && ',' !in IntToString(y.r);
    assert IntToString(x.r) + [','] + IntToString(x.c) == IntToString(y.r) + [','] + IntToString(y.c);
    SplitAtSeparator(IntToString(x.r), IntToString(x.c), IntToString(y.r), IntToString(y.c), ',');
    IntToStringInjective(x.r, y.r);
    IntToStringInjective(x.c, y.c);
  }

  lemma PlayerNameInjective(p: Player, q: Player)
    requires PlayerName(p) == PlayerName(q)
    ensures p == q
  {
  }

  /** The key regrouped as the player's name, a colon, and the rest. */
  lemma KeyShape(l: WinningLine)
    requires |l.coords| > 0
    ensures var sorted := SortedPair(CoordString(First(l)), CoordString(Last(l)));
      LineKey(l) == PlayerName(l.player) + [':'] + (sorted.0 + [':'] + sorted.1)
  {
    var sorted := SortedPair(CoordString(First(l)), CoordString(Last(l)));
    var n, s0, s1 := PlayerName(l.player), sorted.0, sorted.1;
    assert LineKey(l) == n + [':'] + s0 + [':'] + s1;
    Regroup(n, s0, s1);
  }

  lemma Regroup(n: string, s0: string, s1: string)
    ensures n + [':'] + s0 + [':'] + s1 == n + [':'] + (s0 + [':'] + s1)
  {
  }

  /** Equal keys mean the same player and the same unordered pair of end cells. */
  lemma LineKeySameEnds(l1: WinningLine, l2: WinningLine)
    requires |l1.coords| > 0 && |l2.coords| > 0 && LineKey(l1) == LineKey(l2)
    ensures SameEnds(l1, l2)
  {
    var p1 := SortedPair(CoordString(First(l1)), CoordString(Last(l1)));
    var p2 := SortedPair(CoordString(First(l2)), CoordString(Last(l2)));
    KeyShape(l1);
    KeyShape(l2);
    SplitAtSeparator(PlayerName(l1.player), p1.0 + [':'] + p1.1, PlayerName(l2.player), p2.0 + [':'] + p2.1, ':');
    PlayerNameInjective(l1.player, l2.player);
    SplitAtSeparator(p1.0, p1.1, p2.0, p2.1, ':');
    var a1, b1, a2, b2 := First(l1), Last(l1), First(l2), Last(l2);
    if p1 == (CoordString(a1), CoordString(b1)) {
      if p2 == (CoordString(a2), CoordString(b2)) {
        CoordStringInjective(a1, a2);
        CoordStringInjective(b1, b2);
      } else {
        CoordStringInjective(a1, b2);
        CoordStringInjective(b1, a2);
      }
    } else {
      if p2 == (CoordString(a2), CoordString(b2)) {
        CoordStringInjective(b1, a2);
        CoordStringInjective(a1, b2);
      } else {
        CoordStringInjective(b1, b2);
        CoordStringInjective(a1, a2);
      }
    }
  }

  predicate AllNonEmpty(ls: seq<WinningLine>) {
    forall k :: 0 <= k < |ls| ==> |ls[k].coords| > 0
  }

  /** `new Set(oldLines.map(generateLineKey))`. */
  function Keys(ls: seq<WinningLine>): set<string>
    requires AllNonEmpty(ls)
  {
    set k | 0 <= k < |ls| :: LineKey(ls[k])
  }

  /** The filter: the defender's new lines whose key is not among the old lines' keys. */
  function NewlyFormedLines(oldLines: seq<WinningLine>, newLines: seq<WinningLine>, defender: Player): (formed: seq<WinningLine>)
    requires AllNonEmpty(oldLines) && AllNonEmpty(newLines)
    ensures forall k :: 0 <= k < |formed| ==> formed[k] in newLines
  {
    if newLines == [] then []
    else
      var init := NewlyFormedLines(oldLines, newLines[..|newLines| - 1], defender);
      var l := newLines[|newLines| - 1];
      if l.player == defender && LineKey(l) !in Keys(oldLines) then init + [l] else init
  }

  /** A key is among the old keys exactly when some old line has the same player and end cells. */
  lemma KeysMember(oldLines: seq<WinningLine>, l: WinningLine)
    requires AllNonEmpty(oldLines) && |l.coords| > 0
    ensures LineKey(l) in Keys(oldLines) <==> exists k :: 0 <= k < |oldLines| && SameEnds(l, oldLines[k])
  {
    if LineKey(l) in Keys(oldLines) {
      var k :| 0 <= k < |oldLines| && LineKey(oldLines[k]) == LineKey(l);
      LineKeySameEnds(l, oldLines[k]);
    }
    if exists k :: 0 <= k < |oldLines| && SameEnds(l, oldLines[k]) {
      var k :| 0 <= k < |oldLines| && SameEnds(l, oldLines[k]);
      LineKeyOfSameEnds(l, oldLines[k]);
    }
  }

  /** The newly formed lines are exactly the defender's new lines that match no old line end for end. */
  lemma {:induction false} NewlyFormedMember(oldLines: seq<WinningLine>, newLines: seq<WinningLine>, defender: Player, l: WinningLine)
    requires AllNonEmpty(oldLines) && AllNonEmpty(newLines)
    ensures l in NewlyFormedLines(oldLines, newLines, defender) <==>
      l in newLines && l.player == defender && |l.coords| > 0 &&
      forall k :: 0 <= k < |oldLines| ==> !SameEnds(l, oldLines[k])
  {
    if newLines != [] {
      var init := newLines[..|newLines| - 1];
      var last := newLines[|newLines| - 1];
      assert newLines == init + [last];
      NewlyFormedMember(oldLines, init, defender, l);
      if l == last {
        KeysMember(oldLines, last);
      }
    }
  }
}
