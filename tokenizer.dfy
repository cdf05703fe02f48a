/**
 * The command tokeniser `split(text, delimeter, length)` of `src/utils/string.ts`
 * (the same function is declared again, character for character, in
 * `src/botservice.ts`): split on every separator, and when that gives more than
 * `length` fields keep the first `length` of them and rejoin the rest as one
 * trailing field.
 */
module Tokenizer {
  import opened JsString

  /** `split(text, delim, length)`. */
  function Split(text: string, delim: char, length: nat): (r: seq<string>)
    ensures 1 <= |r| <= length + 1
    ensures Join(r, delim) == text
    ensures forall i :: 0 <= i < |r| - 1 ==> delim !in r[i]
  {
    var pieces := SplitAll(text, delim);
    JoinSplitAll(text, delim);
    if |pieces| > length then
      JoinAppend(pieces[..length], pieces[length..], delim);
      assert pieces[..length] + pieces[length..] == pieces;
      pieces[..length] + [Join(pieces[length..], delim)]
    else pieces
  }

  /** When the text has at most `length` fields, `split` returns exactly them. */
  lemma SplitShort(text: string, delim: char, length: nat)
    requires |SplitAll(text, delim)| <= length
    ensures Split(text, delim, length) == SplitAll(text, delim)
  {
  }

  /** When the text has more than `length` fields, the result has `length + 1`
      of them: the first `length` fields unchanged, then the rest rejoined. */
  lemma SplitLong(text: string, delim: char, length: nat)
    requires |SplitAll(text, delim)| > length
    ensures var r := Split(text, delim, length);
      var pieces := SplitAll(text, delim);
      |r| == length + 1 && r[..length] == pieces[..length]
      && r[length] == Join(pieces[length..], delim)
  {
  }

  /** The result is determined by its three defining facts: any field list of
      at most `length + 1` fields whose leading fields hold no separator, that
      joins back to `text`, and that keeps every field `split` would have made
      while there are at most `length` of them, is the result of `Split`. */
  lemma {:induction false} SplitUnique(text: string, delim: char, length: nat, r: seq<string>)
    requires 1 <= |r| <= length + 1
    requires Join(r, delim) == text
    requires forall i :: 0 <= i < |r| - 1 ==> delim !in r[i]
    requires |r| == length + 1 || delim !in r[|r| - 1]
    ensures r == Split(text, delim, length)
  {
    var pieces := SplitAll(text, delim);
    if delim !in r[|r| - 1] {
      SplitAllJoin(r, delim);
      assert pieces == r;
    } else {
      // |r| == length + 1: the last field is the rejoined remainder.
      var last := SplitAll(r[length], delim);
      JoinSplitAll(r[length], delim);
      assert |last| >= 2;
      var all := r[..length] + last;
      forall i | 0 <= i < |all| ensures delim !in all[i] {
        if i < length { assert all[i] == r[i]; } else { assert all[i] == last[i - length]; }
      }
      JoinAppend(r[..length], last, delim);
      assert r[..length] + [r[length]] == r;
      assert Join(all, delim) == text;
      SplitAllJoin(all, delim);
      assert pieces == all;
      assert pieces[..length] == r[..length];
      assert pieces[length..] == last;
    }
  }

  /** The tokeniser applied to a text built from separator-free words gives
      back the first `length` words and then the remaining words rejoined. */
  lemma TokenizeWords(words: seq<string>, delim: char, length: nat)
    requires |words| >= 1
    requires forall i :: 0 <= i < |words| ==> delim !in words[i]
    ensures var r := Split(Join(words, delim), delim, length);
      if |words| <= length then r == words
      else |r| == length + 1 && r[..length] == words[..length] && r[length] == Join(words[length..], delim)
  {
    SplitAllJoin(words, delim);
  }
}
