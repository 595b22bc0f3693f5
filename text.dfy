/** Substring search, as C#'s `string.Contains` does it on connection keys. */
module Text {

  /** `word` occurs in `text` starting at index i. */
  ghost predicate OccursAt(text: string, word: string, i: int)
  {
    0 <= i && i + |word| <= |text| && text[i..i + |word|] == word
  }

  /** `string.Contains`: `word` occurs somewhere in `text`. */
  function Contains(text: string, word: string): (r: bool)
    ensures r <==> exists i :: OccursAt(text, word, i)
    decreases |text|
  {
    if |text| < |word| then
      assert forall i :: !OccursAt(text, word, i);
      false
    else if word <= text then
      assert OccursAt(text, word, 0);
      true
    else
      var r := Contains(text[1..], word);
      assert r ==> exists i :: OccursAt(text, word, i) by {
        if r {
          var j :| OccursAt(text[1..], word, j);
          assert text[1..][j..j + |word|] == text[j + 1..j + 1 + |word|];
          assert OccursAt(text, word, j + 1);
        }
      }
      assert (exists i :: OccursAt(text, word, i)) ==> r by {
        if exists i :: OccursAt(text, word, i) {
          var i :| OccursAt(text, word, i);
          assert i != 0;
          assert text[1..][i - 1..i - 1 + |word|] == text[i..i + |word|];
          assert OccursAt(text[1..], word, i - 1);
        }
      }
      r
  }

  /** An occurrence of `word` in `text + tail` lies inside `text`, inside
      `tail`, or across the seam, and then it covers the first character of
      `tail`. */
  lemma Seam(text: string, tail: string, word: string, i: int)
    requires OccursAt(text + tail, word, i)
    ensures || OccursAt(text, word, i)
            || OccursAt(tail, word, i - |text|)
            || (i < |text| < i + |word| && word[|text| - i] == tail[0])
  {
    var whole := text + tail;
    if i + |word| <= |text| {
      assert whole[i..i + |word|] == text[i..i + |word|];
    } else if i >= |text| {
      assert whole[i..i + |word|] == tail[i - |text|..i - |text| + |word|];
    } else {
      assert word[|text| - i] == whole[|text|];
    }
  }

  /** When `word` holds no `sep` and `tail` starts with `sep`, `word` occurs in
      `text + tail` exactly when it occurs in `text` or in `tail`. */
  lemma {:induction false} NotAcrossSeparator(text: string, sep: char, tail: string, word: string)
    requires sep !in word
    requires |tail| > 0 && tail[0] == sep
    ensures Contains(text + tail, word) <==> Contains(text, word) || Contains(tail, word)
  {
    var whole := text + tail;
    if Contains(whole, word) {
      var i :| OccursAt(whole, word, i);
      Seam(text, tail, word, i);
      if !OccursAt(text, word, i) {
        assert OccursAt(tail, word, i - |text|);
      }
    }
    if Contains(text, word) {
      var i :| OccursAt(text, word, i);
      assert whole[i..i + |word|] == text[i..i + |word|];
      assert OccursAt(whole, word, i);
    }
    if Contains(tail, word) {
      var i :| OccursAt(tail, word, i);
      assert whole[|text| + i..|text| + i + |word|] == tail[i..i + |word|];
      assert OccursAt(whole, word, |text| + i);
    }
  }
}
