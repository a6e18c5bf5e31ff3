/**
 * The string functions of the embedded SQL engine that the transformers use
 * (LPAD, SUBSTR, REPLACE and the `||` operator), on plain strings and on
 * nullable cells. Every function on cells propagates NULL, as SQL does.
 */
module SqlText {
  import opened Wrappers

  /** A nullable VARCHAR cell. */
  type Cell = Option<string>

  /** `n` copies of the character '0'. */
  function Zeros(n: nat): (z: string)
    ensures |z| == n
    ensures forall i :: 0 <= i < n ==> z[i] == '0'
  {
    if n == 0 then "" else Zeros(n - 1) + "0"
  }

  /**
   * lpad(s, w, '0') on a non-null string: the string is padded on the left
   * with '0' up to `w` characters, or truncated on the right when it is longer.
   */
  function LPadText(s: string, w: nat): (r: string)
    ensures |r| == w
    ensures |s| <= w ==> r[w - |s|..] == s && forall i :: 0 <= i < w - |s| ==> r[i] == '0'
    ensures w <= |s| ==> s[..w] == r
  {
    if w <= |s| then s[..w] else Zeros(w - |s|) + s
  }

  /** LPAD on a cell: NULL stays NULL. */
  function LPad(c: Cell, w: nat): (r: Cell)
    ensures r.Some? <==> c.Some?
    ensures r.Some? ==> |r.value| == w
  {
    match c
    case None => None
    case Some(s) => Some(LPadText(s, w))
  }

  /** Padding is idempotent: padding an already padded value changes nothing. */
  lemma LPadIdempotent(c: Cell, w: nat)
    ensures LPad(LPad(c, w), w) == LPad(c, w)
  {
    if c.Some? {
      var p := LPadText(c.value, w);
      assert p[..w] == p;
    }
  }

  /** A value that already has the width is left as it is. */
  lemma LPadKeepsExactWidth(s: string, w: nat)
    requires |s| == w
    ensures LPadText(s, w) == s
  {
    assert s[..w] == s;
  }

  /**
   * substring(s, start, len) with a 1-based `start`; positions beyond the end
   * of the string are cut off, so the result may be shorter than `len`.
   */
  function Substr(s: string, start: nat, len: nat): (r: string)
    requires 1 <= start
    ensures |r| <= len
    ensures start - 1 + len <= |s| ==> r == s[start - 1..start - 1 + len]
  {
    var from := if start - 1 <= |s| then start - 1 else |s|;
    var to := if from + len <= |s| then from + len else |s|;
    s[from..to]
  }

  /**
   * The positional date rewrite
   * SUBSTR(s, 1, 4) || '-' || SUBSTR(s, 5, 2) || '-' || SUBSTR(s, 7, 2):
   * no sentinel and no calendar check.
   */
  function DateText(s: string): (r: string)
  {
    Substr(s, 1, 4) + "-" + Substr(s, 5, 2) + "-" + Substr(s, 7, 2)
  }

  /** Removing the two inserted dashes from a 10-character date. */
  function Undash(d: string): (s: string)
    requires |d| == 10
    ensures |s| == 8
  {
    d[..4] + d[4 + 1..7] + d[7 + 1..]
  }

  /**
   * On an 8-character value the rewrite gives 10 characters with dashes at
   * positions 4 and 7, and removing the dashes gives the value back.
   */
  lemma DateTextShape(s: string)
    requires |s| == 8
    ensures |DateText(s)| == 10
    ensures DateText(s)[4] == '-' && DateText(s)[7] == '-'
    ensures Undash(DateText(s)) == s
  {
    var d := DateText(s);
    assert Substr(s, 1, 4) == s[..4];
    assert Substr(s, 5, 2) == s[4..6];
    assert Substr(s, 7, 2) == s[6..8];
    assert d == s[..4] + "-" + s[4..6] + "-" + s[6..8];
    assert d[..4] == s[..4];
    assert d[5..7] == s[4..6];
    assert d[8..] == s[6..8];
    assert s[..4] + s[4..6] + s[6..8] == s;
  }

  /** The rewrite does not validate the calendar: the all-zero value becomes '0000-00-00'. */
  lemma DateTextKeepsZeros()
    ensures DateText("00000000") == "0000-00-00"
  {
    assert Substr("00000000", 1, 4) == "0000";
    assert Substr("00000000", 5, 2) == "00";
    assert Substr("00000000", 7, 2) == "00";
  }

  /**
   * The rewrite is not idempotent: applied to its own output it scrambles the
   * date, so a transformer must never run twice over the same loaded table.
   */
  lemma DateTextNotIdempotent()
    ensures DateText(DateText("20240131")) != DateText("20240131")
  {
    var once := DateText("20240131");
    DateTextShape("20240131");
    assert |once| == 10;
    var twice := DateText(once);
    assert Substr(once, 5, 2) == once[4..6];
    assert once[4] == '-';
    assert twice[5] == once[4];
    assert once[5] != '-' by {
      assert Substr("20240131", 5, 2) == "01";
      assert once == Substr("20240131", 1, 4) + "-" + "01" + "-" + Substr("20240131", 7, 2);
    }
  }

  /** The unguarded date rewrite on a cell (stated per row in establishments). */
  function Reformat(c: Cell): (r: Cell)
    ensures r.Some? <==> c.Some?
  {
    match c
    case None => None
    case Some(s) => Some(DateText(s))
  }

  /** The all-zero date sentinel. */
  const Sentinel: string := "00000000"

  /**
   * CASE WHEN c = '00000000' THEN NULL WHEN c != '00000000' THEN <rewrite>
   * ELSE c END. A NULL cell fails both comparisons and takes the ELSE branch.
   */
  function GuardedDate(c: Cell): (r: Cell)
    ensures r.Some? <==> c.Some? && c.value != Sentinel
    ensures r.Some? && |c.value| == 8 ==> |r.value| == 10 && Undash(r.value) == c.value
  {
    match c
    case None => c
    case Some(s) =>
      if s == Sentinel then None
      else
        DateTextShape2(s);
        Some(DateText(s))
  }

  /** Helper used inside GuardedDate: the shape lemma guarded by the length. */
  lemma DateTextShape2(s: string)
    ensures |s| == 8 ==> |DateText(s)| == 10 && Undash(DateText(s)) == s
  {
    if |s| == 8 { DateTextShape(s); }
  }

  /** `a || b`: NULL when either side is NULL. */
  function Concat(a: Cell, b: Cell): (r: Cell)
    ensures r.Some? <==> a.Some? && b.Some?
    ensures r.Some? ==> a.Some? && b.Some? && |r.value| == |a.value| + |b.value|
                        && r.value[..|a.value|] == a.value && r.value[|a.value|..] == b.value
  {
    if a.Some? && b.Some? then Some(a.value + b.value) else None
  }

  /**
   * CASE c WHEN k1 THEN v1 WHEN k2 THEN v2 ... ELSE otherwise END, the WHEN
   * list built from a dictionary in its order. The first equal key wins; a
   * NULL operand equals no key and takes the ELSE branch.
   */
  function CaseWhen(c: Cell, cases: seq<(string, string)>, otherwise: Cell): (r: Cell)
    ensures (forall k :: 0 <= k < |cases| ==> c != Some(cases[k].0)) ==> r == otherwise
    ensures forall k :: (0 <= k < |cases| && c == Some(cases[k].0) &&
                         (forall j :: 0 <= j < k ==> c != Some(cases[j].0))) ==> r == Some(cases[k].1)
  {
    if cases == [] then otherwise
    else if c == Some(cases[0].0) then Some(cases[0].1)
    else
      assert forall k :: 1 <= k < |cases| ==> cases[k] == cases[1..][k - 1];
      CaseWhen(c, cases[1..], otherwise)
  }

  /** No key of a CASE dictionary appears twice. */
  predicate DistinctKeys(cases: seq<(string, string)>)
  {
    forall i, j :: 0 <= i < j < |cases| ==> cases[i].0 != cases[j].0
  }

  /** With distinct keys, each key of the dictionary gets exactly its own value. */
  lemma CaseWhenKeys(cases: seq<(string, string)>, otherwise: Cell)
    requires DistinctKeys(cases)
    ensures forall k :: 0 <= k < |cases| ==> CaseWhen(Some(cases[k].0), cases, otherwise) == Some(cases[k].1)
  {
    forall k | 0 <= k < |cases|
      ensures CaseWhen(Some(cases[k].0), cases, otherwise) == Some(cases[k].1)
    {
      assert forall j :: 0 <= j < k ==> cases[j].0 != cases[k].0;
    }
  }

  /** replace(s, from, to) for a one-character pattern. */
  function ReplaceChar(s: string, from: char, to: string): (r: string)
  {
    if s == [] then []
    else (if s[0] == from then to else [s[0]]) + ReplaceChar(s[1..], from, to)
  }

  /** REPLACE on a cell: NULL stays NULL. */
  function Replace(c: Cell, from: char, to: string): (r: Cell)
    ensures r.Some? <==> c.Some?
  {
    match c
    case None => None
    case Some(s) => Some(ReplaceChar(s, from, to))
  }

  /** Reference definition: the characters of `s` that are not in `cs`, in order. */
  function WithoutChars(s: string, cs: set<char>): (r: string)
    ensures |r| <= |s|
    ensures forall i :: 0 <= i < |r| ==> r[i] !in cs && r[i] in s
  {
    if s == [] then []
    else (if s[0] in cs then [] else [s[0]]) + WithoutChars(s[1..], cs)
  }

  /** A string with none of the characters `cs` is left unchanged. */
  lemma {:induction false} WithoutCharsNoop(s: string, cs: set<char>)
    requires forall i :: 0 <= i < |s| ==> s[i] !in cs
    ensures WithoutChars(s, cs) == s
  {
    if s != [] {
      WithoutCharsNoop(s[1..], cs);
      assert s == [s[0]] + s[1..];
    }
  }

  /** Removing a character with REPLACE(s, c, '') is the filter that drops `c`. */
  lemma {:induction false} RemoveCharIsFilter(s: string, c: char)
    ensures ReplaceChar(s, c, "") == WithoutChars(s, {c})
  {
    if s != [] {
      RemoveCharIsFilter(s[1..], c);
    }
  }

  /** Filtering twice is filtering by the union of the dropped characters. */
  lemma {:induction false} WithoutCharsCompose(s: string, a: set<char>, b: set<char>)
    ensures WithoutChars(WithoutChars(s, a), b) == WithoutChars(s, a + b)
  {
    if s != [] {
      WithoutCharsCompose(s[1..], a, b);
      var head := if s[0] in a then [] else [s[0]];
      var rest := WithoutChars(s[1..], a);
      assert WithoutChars(s, a) == head + rest;
      WithoutCharsAppend(head, rest, b);
    }
  }

  /** Filtering distributes over concatenation. */
  lemma {:induction false} WithoutCharsAppend(x: string, y: string, cs: set<char>)
    ensures WithoutChars(x + y, cs) == WithoutChars(x, cs) + WithoutChars(y, cs)
  {
    if x == [] {
      assert x + y == y;
    } else {
      assert (x + y)[1..] == x[1..] + y;
      WithoutCharsAppend(x[1..], y, cs);
    }
  }

  /** The punctuation of a formatted CNPJ. */
  const Punctuation: set<char> := {'.', '/', '-'}

  /** REPLACE(REPLACE(REPLACE(c, '.', ''), '/', ''), '-', ''). */
  function StripPunctuation(c: Cell): Cell
  {
    Replace(Replace(Replace(c, '.', ""), '/', ""), '-', "")
  }

  /** The three nested REPLACE calls are the filter that drops every punctuation character. */
  lemma StripIsFilter(c: Cell)
    ensures StripPunctuation(c).Some? <==> c.Some?
    ensures c.Some? ==> StripPunctuation(c) == Some(WithoutChars(c.value, Punctuation))
  {
    if c.Some? {
      var s := c.value;
      RemoveCharIsFilter(s, '.');
      var s1 := WithoutChars(s, {'.'});
      RemoveCharIsFilter(s1, '/');
      var s2 := WithoutChars(s1, {'/'});
      RemoveCharIsFilter(s2, '-');
      WithoutCharsCompose(s, {'.'}, {'/'});
      WithoutCharsCompose(s, {'.'} + {'/'}, {'-'});
      assert {'.'} + {'/'} + {'-'} == Punctuation;
    }
  }

  /** After the cleanup no punctuation character is left, and no other character is dropped. */
  lemma StripLeavesNoPunctuation(c: Cell)
    ensures StripPunctuation(c).Some? ==>
      forall i :: 0 <= i < |StripPunctuation(c).value| ==> StripPunctuation(c).value[i] !in Punctuation
    ensures c.Some? && (forall i :: 0 <= i < |c.value| ==> c.value[i] !in Punctuation) ==> StripPunctuation(c) == c
  {
    StripIsFilter(c);
    if c.Some? && (forall i :: 0 <= i < |c.value| ==> c.value[i] !in Punctuation) {
      WithoutCharsNoop(c.value, Punctuation);
    }
  }

  /** The cleanup is idempotent: running it again changes nothing. */
  lemma StripIdempotent(c: Cell)
    ensures StripPunctuation(StripPunctuation(c)) == StripPunctuation(c)
  {
    StripLeavesNoPunctuation(c);
    StripLeavesNoPunctuation(StripPunctuation(c));
  }
}
