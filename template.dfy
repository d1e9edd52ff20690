/**
 * JavaScript template literals. A literal with n substitutions is n + 1
 * fixed strings with the n substituted values written between them, so
 * `Fill(strings, values)` is the text the literal evaluates to. Both the
 * preview document and a console line are such literals; the lemmas say
 * where each string and each value lands in the text, and `Unfill` reads the
 * values back out.
 */
module Template {
  import opened Wrappers

  /** `strings[0] + values[0] + strings[1] + ... + values[n-1] + strings[n]`. */
  function Fill(strings: seq<string>, values: seq<string>): string
    requires |strings| == |values| + 1
    decreases values
  {
    if values == [] then strings[0]
    else strings[0] + values[0] + Fill(strings[1..], values[1..])
  }

  /** A literal with three substitutions, written out. */
  lemma Fill3(s0: string, s1: string, s2: string, s3: string, v0: string, v1: string, v2: string)
    ensures Fill([s0, s1, s2, s3], [v0, v1, v2]) == s0 + v0 + s1 + v1 + s2 + v2 + s3
  {
    assert [s0, s1, s2, s3][1..] == [s1, s2, s3] && [v0, v1, v2][1..] == [v1, v2];
    assert [s1, s2, s3][1..] == [s2, s3] && [v1, v2][1..] == [v2];
    assert [s2, s3][1..] == [s3] && [v2][1..] == [];
    assert Fill([s2, s3], [v2]) == s2 + v2 + s3;
    assert Fill([s1, s2, s3], [v1, v2]) == s1 + v1 + (s2 + v2 + s3);
  }

  /** Where fixed string `k` starts in the filled text. */
  function StringAt(strings: seq<string>, values: seq<string>, k: nat): nat
    requires |strings| == |values| + 1 && k <= |values|
  {
    if k == 0 then 0 else StringAt(strings, values, k - 1) + |strings[k - 1]| + |values[k - 1]|
  }

  /** Where value `k` starts in the filled text: right after fixed string `k`. */
  function ValueAt(strings: seq<string>, values: seq<string>, k: nat): nat
    requires |strings| == |values| + 1 && k < |values|
  {
    StringAt(strings, values, k) + |strings[k]|
  }

  /** `t` occurs verbatim in `s` starting at index `i`. */
  predicate Occurs(s: string, t: string, i: int)
  {
    0 <= i && i + |t| <= |s| && s[i..i + |t|] == t
  }

  /** Dropping the first string and value shifts every later position by their lengths. */
  lemma {:induction false} StringAtTail(strings: seq<string>, values: seq<string>, k: nat)
    requires |strings| == |values| + 1 && 0 < k <= |values|
    ensures StringAt(strings, values, k)
         == |strings[0]| + |values[0]| + StringAt(strings[1..], values[1..], k - 1)
  {
    if k > 1 {
      StringAtTail(strings, values, k - 1);
    }
  }

  /** The filled text is exactly as long as its strings and values together. */
  lemma {:induction false} FillLength(strings: seq<string>, values: seq<string>)
    requires |strings| == |values| + 1
    ensures |Fill(strings, values)| == StringAt(strings, values, |values|) + |strings[|values|]|
    decreases values
  {
    if values != [] {
      FillLength(strings[1..], values[1..]);
      StringAtTail(strings, values, |values|);
    }
  }

  /** Every fixed string sits verbatim at its position. */
  lemma {:induction false} FillStringPart(strings: seq<string>, values: seq<string>, k: nat)
    requires |strings| == |values| + 1 && k <= |values|
    ensures Occurs(Fill(strings, values), strings[k], StringAt(strings, values, k))
    decreases values
  {
    var r := Fill(strings, values);
    if values == [] {
      assert r[0..|r|] == r;
    } else {
      var head := strings[0] + values[0];
      var tail := Fill(strings[1..], values[1..]);
      assert r == head + tail;
      if k == 0 {
        OccursFirst(strings[0], values[0] + tail);
        assert r == strings[0] + (values[0] + tail);
      } else {
        FillStringPart(strings[1..], values[1..], k - 1);
        StringAtTail(strings, values, k);
        OccursLast(head, tail);
        OccursShift(tail, strings[k], StringAt(strings[1..], values[1..], k - 1), r, |head|);
      }
    }
  }

  /** Every value sits verbatim at its position. */
  lemma {:induction false} FillValuePart(strings: seq<string>, values: seq<string>, k: nat)
    requires |strings| == |values| + 1 && k < |values|
    ensures Occurs(Fill(strings, values), values[k], ValueAt(strings, values, k))
    decreases values
  {
    var r := Fill(strings, values);
    var head := strings[0] + values[0];
    var tail := Fill(strings[1..], values[1..]);
    assert r == head + tail;
    if k == 0 {
      OccursMiddle(strings[0], values[0], tail);
    } else {
      FillValuePart(strings[1..], values[1..], k - 1);
      StringAtTail(strings, values, k);
      OccursLast(head, tail);
      OccursShift(tail, values[k], ValueAt(strings[1..], values[1..], k - 1), r, |head|);
    }
  }

  /**
   * Reads the values back out of `text`, given the fixed strings and the
   * length of each value; fails unless every fixed string is where those
   * lengths put it and nothing is left over.
   */
  function Unfill(strings: seq<string>, text: string, lengths: seq<nat>): Option<seq<string>>
    requires |strings| == |lengths| + 1
    decreases lengths
  {
    if lengths == [] then
      if text == strings[0] then Some([]) else None
    else
      var head := |strings[0]|;
      if |text| < head + lengths[0] || text[..head] != strings[0] then None
      else
        match Unfill(strings[1..], text[head + lengths[0]..], lengths[1..])
        case None => None
        case Some(rest) => Some([text[head..head + lengths[0]]] + rest)
  }

  /** Unfilling a filled text with the values' own lengths gives back the values. */
  lemma {:induction false} UnfillFill(strings: seq<string>, values: seq<string>, lengths: seq<nat>)
    requires |strings| == |values| + 1 && |lengths| == |values|
    requires forall k :: 0 <= k < |values| ==> lengths[k] == |values[k]|
    ensures Unfill(strings, Fill(strings, values), lengths) == Some(values)
    decreases values
  {
    if values != [] {
      var text := Fill(strings, values);
      var head := |strings[0]|;
      var tail := Fill(strings[1..], values[1..]);
      assert text == strings[0] + values[0] + tail;
      assert text[..head] == strings[0];
      assert text[head..head + lengths[0]] == values[0];
      assert text[head + lengths[0]..] == tail;
      UnfillFill(strings[1..], values[1..], lengths[1..]);
      assert [values[0]] + values[1..] == values;
    }
  }

  /** Whatever `Unfill` accepts is a filled text: that of the values it returns, which have the given lengths. */
  lemma {:induction false} FillUnfill(strings: seq<string>, text: string, lengths: seq<nat>)
    requires |strings| == |lengths| + 1
    ensures Unfill(strings, text, lengths).Some? ==>
      var values := Unfill(strings, text, lengths).value;
      && |values| == |lengths|
      && (forall k :: 0 <= k < |values| ==> |values[k]| == lengths[k])
      && Fill(strings, values) == text
    decreases lengths
  {
    if lengths != [] && Unfill(strings, text, lengths).Some? {
      var head := |strings[0]|;
      var rest := text[head + lengths[0]..];
      FillUnfill(strings[1..], rest, lengths[1..]);
      var values := Unfill(strings, text, lengths).value;
      assert values[1..] == Unfill(strings[1..], rest, lengths[1..]).value;
      assert text == text[..head] + text[head..head + lengths[0]] + rest;
    }
  }

  /** Lines of text, each followed by a line break. */
  function Unlines(lines: seq<string>): string
  {
    if lines == [] then "" else lines[0] + "\n" + Unlines(lines[1..])
  }

  /** The lines of two texts, one after the other, are the two texts one after the other. */
  lemma {:induction false} UnlinesAppend(a: seq<string>, b: seq<string>)
    ensures Unlines(a + b) == Unlines(a) + Unlines(b)
  {
    if a == [] {
      assert a + b == b;
      assert Unlines(a) + Unlines(b) == Unlines(b);
    } else {
      var first := a[0] + "\n";
      assert Unlines(a + b) == first + Unlines(a[1..] + b) by {
        assert (a + b)[1..] == a[1..] + b;
      }
      UnlinesAppend(a[1..], b);
      AppendAssoc(first, Unlines(a[1..]), Unlines(b));
    }
  }

  /** Concatenation is associative. */
  lemma AppendAssoc<T>(x: seq<T>, y: seq<T>, z: seq<T>)
    ensures x + (y + z) == x + y + z
  {
  }

  /** A line sits right after the lines before it. */
  lemma UnlinesLineAt(before: seq<string>, line: string, after: seq<string>)
    ensures Occurs(Unlines(before + [line] + after), line, |Unlines(before)|)
  {
    UnlinesAppend(before + [line], after);
    UnlinesAppend(before, [line]);
    assert Unlines([line]) == line + "\n" + Unlines([]);
    var rest := "\n" + Unlines(after);
    assert Unlines([line]) + Unlines(after) == line + rest by {
      AppendAssoc(line, "\n", Unlines(after));
    }
    AppendAssoc(Unlines(before), line, rest);
    OccursMiddle(Unlines(before), line, rest);
  }

  /** An occurrence inside a part is an occurrence in the whole, shifted by where the part sits. */
  lemma OccursShift(part: string, t: string, i: int, whole: string, j: int)
    requires Occurs(part, t, i) && Occurs(whole, part, j)
    ensures Occurs(whole, t, j + i)
  {
    forall m | 0 <= m < |t|
      ensures whole[j + i..j + i + |t|][m] == t[m]
    {
      assert t[m] == part[i..i + |t|][m] == part[i + m];
      assert part[i + m] == whole[j..j + |part|][i + m] == whole[j + i + m];
    }
  }

  /** A text starts with its first part. */
  lemma OccursFirst(a: string, b: string)
    ensures Occurs(a + b, a, 0)
  {
    assert (a + b)[..|a|] == a;
  }

  /** A text ends with its last part. */
  lemma OccursLast(a: string, b: string)
    ensures Occurs(a + b, b, |a|)
  {
    assert (a + b)[|a|..] == b;
  }

  /** The middle of three concatenated texts sits right after the first. */
  lemma OccursMiddle(a: string, b: string, c: string)
    ensures Occurs(a + b + c, b, |a|)
  {
    assert (a + b + c)[|a|..|a| + |b|] == b;
  }
}
