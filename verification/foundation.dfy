/** Optional values: the model's stand-in for Objective-C and Swift nil. */
module Optional {
  datatype Option<T> = None | Some(value: T)
}

/** The application bundle, whose identifier names the application logger and error domain. */
module Bundle {
  /** The bundle identifier is read from the application's Info.plist at run time; here it is fixed. */
  const BundleIdentifier: string := "com.example.application"
}

/**
 * Line-oriented text: joining blocks with newline characters, splitting them apart again,
 * and the decimal rendering of integers.
 */
module Text {

  const Newline: char := '\n'

  /** The blocks, in order, separated by exactly one newline each. */
  function Join(blocks: seq<string>): string
  {
    if |blocks| == 0 then ""
    else if |blocks| == 1 then blocks[0]
    else blocks[0] + [Newline] + Join(blocks[1..])
  }

  /** The position of the first occurrence of c in s. */
  function IndexOf(s: string, c: char): (i: nat)
    requires c in s
    ensures i < |s| && s[i] == c && c !in s[..i]
  {
    if s[0] == c then 0 else 1 + IndexOf(s[1..], c)
  }

  /** A position holding c with no c before it is the position IndexOf finds. */
  lemma IndexOfFirst(s: string, c: char, k: nat)
    requires k < |s| && s[k] == c && c !in s[..k]
    ensures c in s && IndexOf(s, c) == k
  {
  }

  /** The newline-separated lines of s (an empty s is one empty line). */
  function Split(s: string): (lines: seq<string>)
    ensures |lines| > 0
    ensures forall k :: 0 <= k < |lines| ==> Newline !in lines[k]
    decreases |s|
  {
    if Newline !in s then [s]
    else
      var i := IndexOf(s, Newline);
      [s[..i]] + Split(s[i + 1..])
  }

  /** No block contains a newline. */
  predicate SingleLines(blocks: seq<string>)
  {
    forall k :: 0 <= k < |blocks| ==> Newline !in blocks[k]
  }

  /** A single line followed by a newline is split off as the first line. */
  lemma SplitFirstLine(b: string, rest: string)
    requires Newline !in b
    ensures Split(b + [Newline] + rest) == [b] + Split(rest)
  {
    var s := b + [Newline] + rest;
    assert s[..|b|] == b;
    IndexOfFirst(s, Newline, |b|);
    assert s[|b| + 1..] == rest;
  }

  /** Splitting the join of single-line blocks gives the blocks back. */
  lemma {:induction false} SplitJoin(blocks: seq<string>)
    requires |blocks| > 0 && SingleLines(blocks)
    ensures Split(Join(blocks)) == blocks
  {
    if |blocks| > 1 {
      assert Join(blocks) == blocks[0] + [Newline] + Join(blocks[1..]);
      SplitFirstLine(blocks[0], Join(blocks[1..]));
      SplitJoin(blocks[1..]);
      assert blocks == [blocks[0]] + blocks[1..];
    }
  }

  /** Joining two non-empty lists of blocks puts one newline between their joins. */
  lemma {:induction false} JoinAppend(a: seq<string>, b: seq<string>)
    requires |a| > 0 && |b| > 0
    ensures Join(a + b) == Join(a) + [Newline] + Join(b)
  {
    if |a| > 1 {
      assert (a + b)[1..] == a[1..] + b;
      JoinAppend(a[1..], b);
    } else {
      assert (a + b)[1..] == b;
    }
  }

  /** A concatenation splits back into its two parts. */
  lemma SplitAppend<T>(a: seq<T>, b: seq<T>)
    ensures (a + b)[..|a|] == a && (a + b)[|a|..] == b
  {
  }

  /** A non-empty concatenation is its first element followed by the rest of both parts. */
  lemma ConsSplit<T>(a: seq<T>, b: seq<T>)
    requires |a| > 0
    ensures (a + b)[0] == a[0] && (a + b)[1..] == a[1..] + b && [a[0]] + (a[1..] + b) == a + b
  {
    assert a == [a[0]] + a[1..];
  }

  /** Putting an element in front of a non-empty sequence keeps its last element. */
  lemma LastOfPrepended<T>(x: T, s: seq<T>)
    requires |s| > 0
    ensures |[x] + s| == |s| + 1 && ([x] + s)[|s|] == s[|s| - 1]
  {
  }

  /** The character of a decimal digit. */
  function DigitChar(d: nat): (c: char)
    requires d < 10
    ensures '0' <= c <= '9'
  {
    ['0', '1', '2', '3', '4', '5', '6', '7', '8', '9'][d]
  }

  /** The decimal digits of n, most significant first, without leading zeros. */
  function NatDecimal(n: nat): (s: string)
    ensures |s| > 0
    ensures forall k :: 0 <= k < |s| ==> '0' <= s[k] <= '9'
  {
    if n < 10 then [DigitChar(n)] else NatDecimal(n / 10) + [DigitChar(n % 10)]
  }

  /** The decimal rendering of an integer, with a leading minus sign when it is negative. */
  function Decimal(n: int): (s: string)
    ensures |s| > 0 && Newline !in s
    ensures forall k :: 0 <= k < |s| ==> s[k] == '-' || '0' <= s[k] <= '9'
  {
    if n < 0 then "-" + NatDecimal(-n) else NatDecimal(n)
  }
}
