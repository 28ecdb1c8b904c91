/** The tokenizer of `parse_input`: `strtok` over the `fgets` buffer with the
    delimiter set `" \n"` (small_shell.c:123, 148). Runs of delimiters yield no
    empty tokens, tab is an ordinary character, and the scan ends at the
    buffer's first NUL, where the C string ends. */
module Tokenizer {

  predicate IsDelimiter(c: char) {
    c == ' ' || c == '\n'
  }

  /** A character that can be part of a token. */
  predicate IsWordChar(c: char) {
    !IsDelimiter(c) && c != '\0'
  }

  predicate AllWordChars(s: string) {
    forall i :: 0 <= i < |s| ==> IsWordChar(s[i])
  }

  /** What `strtok` can hand back: a non-empty run of word characters. */
  predicate IsWord(t: string) {
    |t| > 0 && AllWordChars(t)
  }

  predicate AllWords(ts: seq<string>) {
    forall i :: 0 <= i < |ts| ==> IsWord(ts[i])
  }

  /** The pending token `cur`, if any, as a list of tokens. */
  function Flush(cur: string): seq<string> {
    if |cur| == 0 then [] else [cur]
  }

  /** Scans `s` with the partial token `cur` already read. */
  function TokensFrom(s: string, cur: string): (ts: seq<string>)
    requires AllWordChars(cur)
    ensures AllWords(ts)
    decreases |s|
  {
    if |s| == 0 || s[0] == '\0' then Flush(cur)
    else if IsDelimiter(s[0]) then Flush(cur) + TokensFrom(s[1..], [])
    else TokensFrom(s[1..], cur + [s[0]])
  }

  /** The successive results of `strtok(buffer, " \n")` and
      `strtok(NULL, " \n")` until it returns NULL. */
  function Tokens(line: string): (ts: seq<string>)
    ensures AllWords(ts)
  {
    TokensFrom(line, [])
  }

  /** The characters a C string contributes to tokens: everything before the
      first NUL except delimiters. */
  function WordChars(s: string): string
    decreases |s|
  {
    if |s| == 0 || s[0] == '\0' then []
    else if IsDelimiter(s[0]) then WordChars(s[1..])
    else [s[0]] + WordChars(s[1..])
  }

  function Concat(ts: seq<string>): string
    decreases |ts|
  {
    if |ts| == 0 then [] else ts[0] + Concat(ts[1..])
  }

  lemma {:induction false} ConcatAppend(a: seq<string>, b: seq<string>)
    ensures Concat(a + b) == Concat(a) + Concat(b)
    decreases |a|
  {
    if |a| == 0 {
      assert a + b == b;
    } else {
      assert (a + b)[0] == a[0];
      assert (a + b)[1..] == a[1..] + b;
      ConcatAppend(a[1..], b);
    }
  }

  lemma ConcatFlush(cur: string)
    ensures Concat(Flush(cur)) == cur
  {
    if |cur| > 0 {
      assert [cur][1..] == [];
      assert cur + [] == cur;
    }
  }

  lemma {:induction false} TokensFromContent(s: string, cur: string)
    requires AllWordChars(cur)
    ensures Concat(TokensFrom(s, cur)) == cur + WordChars(s)
    decreases |s|
  {
    if |s| == 0 || s[0] == '\0' {
      ConcatFlush(cur);
      assert cur + [] == cur;
    } else if IsDelimiter(s[0]) {
      TokensFromContent(s[1..], []);
      ConcatAppend(Flush(cur), TokensFrom(s[1..], []));
      ConcatFlush(cur);
      assert [] + WordChars(s[1..]) == WordChars(s[1..]);
    } else {
      TokensFromContent(s[1..], cur + [s[0]]);
      assert cur + [s[0]] + WordChars(s[1..]) == cur + ([s[0]] + WordChars(s[1..]));
    }
  }

  /** No character is lost or reordered: the tokens, laid end to end, are
      exactly the non-delimiter characters of the C string, in order. */
  lemma TokensContent(line: string)
    ensures Concat(Tokens(line)) == WordChars(line)
  {
    TokensFromContent(line, []);
  }

  /** Words separated by single spaces. */
  function Join(ts: seq<string>): string
    decreases |ts|
  {
    if |ts| == 0 then ""
    else if |ts| == 1 then ts[0]
    else ts[0] + " " + Join(ts[1..])
  }

  lemma {:induction false} JoinLength(ts: seq<string>, n: nat)
    requires |ts| >= 1
    requires forall i :: 0 <= i < |ts| ==> |ts[i]| == n
    ensures |Join(ts)| == |ts| * (n + 1) - 1
    decreases |ts|
  {
    if |ts| > 1 {
      JoinLength(ts[1..], n);
    }
  }

  lemma {:induction false} TokensFromWord(w: string, rest: string, cur: string)
    requires AllWordChars(w)
    requires AllWordChars(cur)
    ensures TokensFrom(w + rest, cur) == TokensFrom(rest, cur + w)
    decreases |w|
  {
    if |w| == 0 {
      assert w + rest == rest;
      assert cur + w == cur;
    } else {
      assert (w + rest)[0] == w[0];
      assert (w + rest)[1..] == w[1..] + rest;
      TokensFromWord(w[1..], rest, cur + [w[0]]);
      assert cur + [w[0]] + w[1..] == cur + w;
    }
  }

  lemma {:induction false} TokensFromDelimiters(tail: string)
    requires forall i :: 0 <= i < |tail| ==> IsDelimiter(tail[i])
    ensures TokensFrom(tail, []) == []
    decreases |tail|
  {
    if |tail| > 0 {
      TokensFromDelimiters(tail[1..]);
    }
  }

  /** Tokenizing words joined by spaces and followed by any run of
      delimiters (the newline `fgets` keeps) gives the words back. */
  lemma {:induction false} TokensOfJoin(ts: seq<string>, tail: string)
    requires AllWords(ts)
    requires forall i :: 0 <= i < |tail| ==> IsDelimiter(tail[i])
    ensures Tokens(Join(ts) + tail) == ts
    decreases |ts|
  {
    if |ts| == 0 {
      assert Join(ts) + tail == tail;
      TokensFromDelimiters(tail);
    } else if |ts| == 1 {
      TokensFromWord(ts[0], tail, []);
      assert [] + ts[0] == ts[0];
      if |tail| > 0 {
        TokensFromDelimiters(tail[1..]);
      }
    } else {
      var rest := " " + (Join(ts[1..]) + tail);
      assert Join(ts) + tail == ts[0] + rest;
      TokensFromWord(ts[0], rest, []);
      assert [] + ts[0] == ts[0];
      assert rest[1..] == Join(ts[1..]) + tail;
      TokensOfJoin(ts[1..], tail);
    }
  }

  // ---- tokens are the maximal runs between delimiters ----

  /** A C string with no NUL inside, so `strtok` reads all of it. */
  predicate NoNul(s: string) {
    forall i :: 0 <= i < |s| ==> s[i] != '\0'
  }

  lemma {:induction false} TokensFromSplit(a: string, d: char, b: string, cur: string)
    requires NoNul(a) && IsDelimiter(d)
    requires AllWordChars(cur)
    ensures TokensFrom(a + [d] + b, cur) == TokensFrom(a, cur) + TokensFrom(b, [])
    decreases |a|
  {
    var s := a + [d] + b;
    if |a| == 0 {
      assert s == [d] + b;
      assert s[1..] == b;
    } else {
      assert s[0] == a[0];
      assert s[1..] == a[1..] + [d] + b;
      if IsDelimiter(a[0]) {
        TokensFromSplit(a[1..], d, b, []);
      } else {
        TokensFromSplit(a[1..], d, b, cur + [a[0]]);
      }
    }
  }

  /** A delimiter splits the line: the tokens of `a d b` are those of `a`
      followed by those of `b`, so no token spans a delimiter. */
  lemma TokensSplit(a: string, d: char, b: string)
    requires NoNul(a) && IsDelimiter(d)
    ensures Tokens(a + [d] + b) == Tokens(a) + Tokens(b)
  {
    TokensFromSplit(a, d, b, []);
  }

  /** A run of word characters with no delimiter inside is one token, whole. */
  lemma TokensOfWord(w: string)
    requires IsWord(w)
    ensures Tokens(w) == [w]
  {
    TokensFromWord(w, [], []);
    assert w + [] == w;
    assert [] + w == w;
  }

  lemma {:induction false} TokensFromNul(a: string, b: string, cur: string)
    requires NoNul(a)
    requires AllWordChars(cur)
    ensures TokensFrom(a + ['\0'] + b, cur) == TokensFrom(a, cur)
    decreases |a|
  {
    var s := a + ['\0'] + b;
    if |a| == 0 {
      assert s[0] == '\0';
    } else {
      assert s[0] == a[0];
      assert s[1..] == a[1..] + ['\0'] + b;
      if IsDelimiter(a[0]) {
        TokensFromNul(a[1..], b, []);
      } else {
        TokensFromNul(a[1..], b, cur + [a[0]]);
      }
    }
  }

  /** The scan ends at the first NUL: what follows it yields no token. */
  lemma TokensStopAtNul(a: string, b: string)
    requires NoNul(a)
    ensures Tokens(a + ['\0'] + b) == Tokens(a)
  {
    TokensFromNul(a, b, []);
  }
}
