/** Lossless source offsets and lexical units (app/utils/text.py).

    Offsets count characters. The Unicode property tables are a parameter, so
    every lemma here holds whatever the tables say. */
module Text {

  datatype Unicode = Unicode(
    isSpace: char -> bool,
    isAlnum: char -> bool,
    isAlpha: char -> bool,
    isDecimal: char -> bool,
    isMark: char -> bool)

  datatype Token = Token(text: string, start: nat, end: nat)

  const ZWJ: char := '\U{200D}'

  predicate Cjk(c: char) {
    var v := c as int;
    0x3400 <= v <= 0x9FFF || 0x20000 <= v <= 0x323AF || 0x3040 <= v <= 0x30FF || 0x31F0 <= v <= 0x31FF
  }

  /** Marks, variation selectors and skin tones never start a new unit. */
  predicate Extends(u: Unicode, c: char) {
    var v := c as int;
    u.isMark(c) || 0xFE00 <= v <= 0xFE0F || 0x1F3FB <= v <= 0x1F3FF || 0xE0100 <= v <= 0xE01EF
  }

  predicate WordChar(u: Unicode, c: char) {
    (u.isAlnum(c) || c == '_') && !Cjk(c)
  }

  predicate Apostrophe(c: char) {
    c == '\'' || c == '\U{2019}'
  }

  /** Position `end` is inside the text and continues a word with one lookahead character. */
  predicate JoinsLetter(u: Unicode, text: string, end: nat) {
    end + 1 < |text| && Apostrophe(text[end]) && u.isAlpha(text[end + 1]) && !Cjk(text[end + 1])
  }

  predicate JoinsDigit(u: Unicode, text: string, end: nat) {
    end + 1 < |text| && (text[end] == '.' || text[end] == ',') && u.isDecimal(text[end + 1])
  }

  // -------- What the loops compute

  function ClusterRest(u: Unicode, text: string, end: nat): (r: nat)
    requires end <= |text|
    ensures end <= r <= |text|
    decreases |text| - end
  {
    if end == |text| then end
    else if Extends(u, text[end]) then ClusterRest(u, text, end + 1)
    else if text[end] == ZWJ && end + 1 < |text| then ClusterRest(u, text, end + 2)
    else end
  }

  function WordRest(u: Unicode, text: string, end: nat, number: bool): (r: nat)
    requires end <= |text|
    ensures end <= r <= |text|
    decreases |text| - end
  {
    if end == |text| then end
    else if WordChar(u, text[end]) then
      WordRest(u, text, ClusterRest(u, text, end + 1), number && u.isDecimal(text[end]))
    else if JoinsLetter(u, text, end) then WordRest(u, text, ClusterRest(u, text, end + 2), false)
    else if number && JoinsDigit(u, text, end) then WordRest(u, text, ClusterRest(u, text, end + 2), number)
    else end
  }

  /** End of the token that starts at a non-space position. */
  function TokenEnd(u: Unicode, text: string, start: nat): (r: nat)
    requires start < |text|
    ensures start < r <= |text|
  {
    var cluster := ClusterRest(u, text, start + 1);
    if WordChar(u, text[start]) then WordRest(u, text, cluster, u.isDecimal(text[start])) else cluster
  }

  function TokensFrom(u: Unicode, text: string, from: nat): seq<Token>
    requires from <= |text|
    decreases |text| - from
  {
    if from == |text| then []
    else if u.isSpace(text[from]) then TokensFrom(u, text, from + 1)
    else
      var end := TokenEnd(u, text, from);
      [Token(text[from..end], from, end)] + TokensFrom(u, text, end)
  }

  function Tokens(u: Unicode, text: string): seq<Token> {
    TokensFrom(u, text, 0)
  }

  // -------- The loops themselves

  method ClusterEnd(u: Unicode, text: string, start: nat) returns (end: nat)
    requires start < |text|
    ensures end == ClusterRest(u, text, start + 1)
  {
    end := start + 1;
    while end < |text|
      invariant start < end <= |text|
      invariant ClusterRest(u, text, end) == ClusterRest(u, text, start + 1)
    {
      if Extends(u, text[end]) {
        end := end + 1;
      } else if text[end] == ZWJ && end + 1 < |text| {
        end := end + 2;
      } else {
        break;
      }
    }
  }

  method ScanToken(u: Unicode, text: string, start: nat) returns (position: nat)
    requires start < |text|
    ensures position == TokenEnd(u, text, start)
  {
    hide Extends, Cjk, Apostrophe, ClusterRest;
    position := ClusterEnd(u, text, start);
    if WordChar(u, text[start]) {
      var number := u.isDecimal(text[start]);
      while position < |text|
        invariant start < position <= |text|
        invariant WordRest(u, text, position, number) == TokenEnd(u, text, start)
        decreases |text| - position
      {
        if WordChar(u, text[position]) {
          number := number && u.isDecimal(text[position]);
          position := ClusterEnd(u, text, position);
        } else if JoinsLetter(u, text, position) {
          number := false;
          position := ClusterEnd(u, text, position + 1);
        } else if number && JoinsDigit(u, text, position) {
          position := ClusterEnd(u, text, position + 1);
        } else {
          break;
        }
      }
    }
  }

  method Tokenize(u: Unicode, text: string) returns (tokens: seq<Token>)
    ensures tokens == Tokens(u, text)
  {
    tokens := [];
    var position := 0;
    while position < |text|
      invariant 0 <= position <= |text|
      invariant tokens + TokensFrom(u, text, position) == Tokens(u, text)
    {
      if u.isSpace(text[position]) {
        position := position + 1;
      } else {
        var start := position;
        position := ScanToken(u, text, start);
        var token := Token(text[start..position], start, position);
        assert tokens + TokensFrom(u, text, start) == (tokens + [token]) + TokensFrom(u, text, position);
        tokens := tokens + [token];
      }
    }
    assert tokens + TokensFrom(u, text, position) == tokens;
  }

  // -------- Tokens are ordered exact slices that cover everything but whitespace

  ghost predicate Exact(text: string, t: Token) {
    t.start < t.end <= |text| && t.text == text[t.start..t.end]
  }

  ghost predicate Ordered(ts: seq<Token>, from: nat) {
    && (forall i :: 0 <= i < |ts| ==> from <= ts[i].start < ts[i].end)
    && (forall i, j :: 0 <= i < j < |ts| ==> ts[i].end <= ts[j].start)
  }

  ghost predicate Covered(ts: seq<Token>, k: nat) {
    exists i :: 0 <= i < |ts| && ts[i].start <= k < ts[i].end
  }

  lemma {:induction false} TokensOrdered(u: Unicode, text: string, from: nat)
    requires from <= |text|
    ensures Ordered(TokensFrom(u, text, from), from)
    decreases |text| - from
  {
    if from == |text| {
    } else if u.isSpace(text[from]) {
      TokensOrdered(u, text, from + 1);
    } else {
      TokensOrdered(u, text, TokenEnd(u, text, from));
    }
  }

  lemma {:induction false} TokensExact(u: Unicode, text: string, from: nat, i: nat)
    requires from <= |text| && i < |TokensFrom(u, text, from)|
    ensures Exact(text, TokensFrom(u, text, from)[i])
    ensures !u.isSpace(text[TokensFrom(u, text, from)[i].start])
    decreases |text| - from
  {
    if u.isSpace(text[from]) {
      TokensExact(u, text, from + 1, i);
    } else if i > 0 {
      TokensExact(u, text, TokenEnd(u, text, from), i - 1);
    }
  }

  /** Only whitespace lies outside the tokens. */
  lemma {:induction false} TokensCover(u: Unicode, text: string, from: nat, k: nat)
    requires from <= k < |text| && !u.isSpace(text[k])
    ensures Covered(TokensFrom(u, text, from), k)
    decreases |text| - from
  {
    if u.isSpace(text[from]) {
      TokensCover(u, text, from + 1, k);
    } else {
      var end := TokenEnd(u, text, from);
      var ts, rest := TokensFrom(u, text, from), TokensFrom(u, text, end);
      if k < end {
        assert ts[0].start <= k < ts[0].end;
      } else {
        TokensCover(u, text, end, k);
        var i :| 0 <= i < |rest| && rest[i].start <= k < rest[i].end;
        assert ts[i + 1] == rest[i];
      }
    }
  }

  // -------- Prefix stability

  ghost predicate Agree(a: string, b: string, p: nat) {
    p <= |a| && p <= |b| && a[..p] == b[..p]
  }

  lemma {:induction false} AgreeAt(a: string, b: string, p: nat, i: nat)
    requires Agree(a, b, p) && i < p
    ensures a[i] == b[i]
  {
    assert a[i] == a[..p][i];
    assert b[i] == b[..p][i];
  }

  /** Two scans through a shared prefix can only part company past its end. */
  lemma {:induction false} ClusterAgrees(u: Unicode, a: string, b: string, p: nat, end: nat)
    requires Agree(a, b, p) && end <= p
    requires ClusterRest(u, a, end) <= p && ClusterRest(u, b, end) <= p
    ensures ClusterRest(u, a, end) == ClusterRest(u, b, end)
    decreases p - end
  {
    if end < p {
      AgreeAt(a, b, p, end);
      if Extends(u, a[end]) {
        ClusterAgrees(u, a, b, p, end + 1);
      } else if a[end] == ZWJ && end + 2 <= p {
        ClusterAgrees(u, a, b, p, end + 2);
      }
    }
  }

  lemma {:induction false} WordAgrees(u: Unicode, a: string, b: string, p: nat, end: nat, number: bool)
    requires Agree(a, b, p) && end <= p
    requires WordRest(u, a, end, number) <= p && WordRest(u, b, end, number) <= p
    ensures WordRest(u, a, end, number) == WordRest(u, b, end, number)
    decreases p - end
  {
    if end < p {
      AgreeAt(a, b, p, end);
      if WordChar(u, a[end]) {
        ClusterAgrees(u, a, b, p, end + 1);
        WordAgrees(u, a, b, p, ClusterRest(u, a, end + 1), number && u.isDecimal(a[end]));
      } else if end + 1 < p {
        AgreeAt(a, b, p, end + 1);
        if JoinsLetter(u, a, end) {
          ClusterAgrees(u, a, b, p, end + 2);
          WordAgrees(u, a, b, p, ClusterRest(u, a, end + 2), false);
        } else if number && JoinsDigit(u, a, end) {
          ClusterAgrees(u, a, b, p, end + 2);
          WordAgrees(u, a, b, p, ClusterRest(u, a, end + 2), number);
        }
      }
    }
  }

  lemma {:induction false} TokenEndAgrees(u: Unicode, a: string, b: string, p: nat, start: nat)
    requires Agree(a, b, p) && start < p
    requires TokenEnd(u, a, start) <= p && TokenEnd(u, b, start) <= p
    ensures TokenEnd(u, a, start) == TokenEnd(u, b, start)
  {
    AgreeAt(a, b, p, start);
    ClusterAgrees(u, a, b, p, start + 1);
    if WordChar(u, a[start]) {
      WordAgrees(u, a, b, p, ClusterRest(u, a, start + 1), u.isDecimal(a[start]));
    }
  }

  ghost predicate EndsAt(ts: seq<Token>, p: int) {
    exists i :: 0 <= i < |ts| && ts[i].end == p
  }

  /** Zero or the end of a token. */
  ghost predicate Boundary(u: Unicode, text: string, p: int) {
    p == 0 || EndsAt(Tokens(u, text), p)
  }

  /** The leading tokens that end at or before `p`. */
  function Upto(ts: seq<Token>, p: nat): (r: seq<Token>)
    ensures r <= ts
    ensures forall i :: 0 <= i < |r| ==> r[i].end <= p
  {
    if ts == [] || ts[0].end > p then [] else [ts[0]] + Upto(ts[1..], p)
  }

  lemma {:induction false} FirstToken(u: Unicode, text: string, from: nat)
    requires from < |text| && !u.isSpace(text[from])
    ensures var ts := TokensFrom(u, text, from); var end := TokenEnd(u, text, from);
      && ts != [] && ts[0] == Token(text[from..end], from, end) && ts[1..] == TokensFrom(u, text, end)
  {
  }

  /** A boundary of the tokens from `from` is at or after the first token's end. */
  lemma {:induction false} PastFirst(u: Unicode, text: string, from: nat, p: nat)
    requires from < |text| && !u.isSpace(text[from])
    requires EndsAt(TokensFrom(u, text, from), p)
    ensures TokenEnd(u, text, from) <= p
    ensures TokenEnd(u, text, from) == p || EndsAt(TokensFrom(u, text, TokenEnd(u, text, from)), p)
  {
    FirstToken(u, text, from);
    TokensOrdered(u, text, from);
    var ts := TokensFrom(u, text, from);
    var i :| 0 <= i < |ts| && ts[i].end == p;
    if i > 0 {
      assert ts[1..][i - 1].end == p;
    }
  }

  lemma {:induction false} UptoAtStart(u: Unicode, text: string, p: nat)
    requires p <= |text|
    ensures Upto(TokensFrom(u, text, p), p) == []
  {
    TokensOrdered(u, text, p);
  }

  lemma {:induction false} PrefixStableFrom(u: Unicode, a: string, b: string, p: nat, from: nat)
    requires Agree(a, b, p) && from <= p
    requires from == p || EndsAt(TokensFrom(u, a, from), p)
    requires from == p || EndsAt(TokensFrom(u, b, from), p)
    ensures Upto(TokensFrom(u, a, from), p) == Upto(TokensFrom(u, b, from), p)
    decreases p - from
  {
    if from == p {
      UptoAtStart(u, a, p);
      UptoAtStart(u, b, p);
    } else {
      AgreeAt(a, b, p, from);
      if u.isSpace(a[from]) {
        PrefixStableFrom(u, a, b, p, from + 1);
      } else {
        PastFirst(u, a, from, p);
        PastFirst(u, b, from, p);
        TokenEndAgrees(u, a, b, p, from);
        var end := TokenEnd(u, a, from);
        FirstToken(u, a, from);
        FirstToken(u, b, from);
        assert a[from..end] == a[..p][from..end] == b[from..end];
        PrefixStableFrom(u, a, b, p, end);
      }
    }
  }

  /** Two texts that agree up to a boundary of both have identical tokens up to it,
      hence the same boundaries up to it. */
  lemma {:induction false} PrefixStable(u: Unicode, a: string, b: string, p: nat)
    requires Agree(a, b, p) && Boundary(u, a, p) && Boundary(u, b, p)
    ensures Upto(Tokens(u, a), p) == Upto(Tokens(u, b), p)
    ensures forall q :: 0 <= q <= p ==> (Boundary(u, a, q) <==> Boundary(u, b, q))
  {
    PrefixStableFrom(u, a, b, p, 0);
    forall q | 0 <= q <= p
      ensures Boundary(u, a, q) <==> Boundary(u, b, q)
    {
      UptoHoldsEnds(u, a, p, q);
      UptoHoldsEnds(u, b, p, q);
    }
  }

  lemma {:induction false} UptoComplete(ts: seq<Token>, p: nat, i: nat, from: nat)
    requires Ordered(ts, from)
    requires i < |ts| && ts[i].end <= p
    ensures i < |Upto(ts, p)|
    decreases i
  {
    if i > 0 {
      assert ts[0].end <= ts[i].start;
      UptoComplete(ts[1..], p, i - 1, from);
    }
  }

  lemma {:induction false} UptoHoldsEnds(u: Unicode, text: string, p: nat, q: nat)
    requires q <= p
    ensures EndsAt(Tokens(u, text), q) <==> EndsAt(Upto(Tokens(u, text), p), q)
  {
    var ts := Tokens(u, text);
    TokensOrdered(u, text, 0);
    if i :| 0 <= i < |ts| && ts[i].end == q {
      UptoComplete(ts, p, i, 0);
      assert Upto(ts, p)[i] == ts[i];
    }
  }

  // -------- Extension

  /** The first `k` tokens survive an extension of `old`; any later old token lies
      inside the one new token that straddles the old end. */
  ghost predicate Survives(text: string, before: seq<Token>, after: seq<Token>, k: nat) {
    && k <= |before| && k <= |after| && before[..k] == after[..k]
    && (k == |before| ==> k == |after| || |text| <= after[k].start)
    && (k < |before| ==>
          && k < |after| && after[k].start < |text| < after[k].end
          && forall i :: k <= i < |before| ==> after[k].start <= before[i].start)
  }

  lemma {:induction false} ExtensionStableFrom(u: Unicode, a: string, b: string, from: nat) returns (k: nat)
    requires a <= b && from <= |a|
    ensures Survives(a, TokensFrom(u, a, from), TokensFrom(u, b, from), k)
    decreases |a| - from
  {
    TokensOrdered(u, b, from);
    k := 0;
    if from < |a| {
      assert a[from] == b[from];
      if u.isSpace(a[from]) {
        k := ExtensionStableFrom(u, a, b, from + 1);
      } else {
        FirstToken(u, a, from);
        FirstToken(u, b, from);
        if TokenEnd(u, b, from) <= |a| {
          TokenEndAgrees(u, a, b, |a|, from);
          k := ExtensionStableFrom(u, a, b, TokenEnd(u, a, from));
          SurvivesLater(a, TokensFrom(u, a, from), TokensFrom(u, b, from), k);
          k := k + 1;
        } else {
          TokensOrdered(u, a, from);
        }
      }
    }
  }

  lemma {:induction false} SurvivesLater(a: string, before: seq<Token>, after: seq<Token>, k: nat)
    requires before != [] && after != [] && before[0].start == after[0].start && before[0].end == after[0].end
    requires Exact(a, before[0]) && after[0].text == before[0].text
    requires Survives(a, before[1..], after[1..], k)
    ensures Survives(a, before, after, k + 1)
  {
    assert before[..k + 1] == [before[0]] + before[1..][..k];
    assert after[..k + 1] == [after[0]] + after[1..][..k];
    forall i | k + 1 <= i < |before|
      ensures after[k + 1].start <= before[i].start
    {
      assert before[i] == before[1..][i - 1];
    }
  }

  /** Extending a text alters only the old tokens inside the single new token that
      straddles the old end. */
  lemma {:induction false} ExtensionStable(u: Unicode, a: string, b: string) returns (k: nat)
    requires a <= b
    ensures Survives(a, Tokens(u, a), Tokens(u, b), k)
  {
    k := ExtensionStableFrom(u, a, b, 0);
  }

  // -------- Whitespace inside tokens

  /** Whitespace and the joiner are none of the things that a token is built from. */
  ghost predicate Sane(u: Unicode) {
    forall c :: u.isSpace(c) || c == ZWJ ==>
      && !Extends(u, c) && !WordChar(u, c) && !u.isAlpha(c) && !u.isDecimal(c) && !Apostrophe(c)
      && c != '.' && c != ',' && !(u.isSpace(c) && c == ZWJ)
  }

  /** The character at `k` follows a joiner that neither starts a token nor was itself
      swallowed by the joiner before it. */
  predicate JoinedOn(u: Unicode, text: string, k: nat)
    requires k <= |text|
    decreases k
  {
    && k >= 2 && text[k - 1] == ZWJ && !JoinedOn(u, text, k - 1)
    && (u.isSpace(text[k - 2]) ==> JoinedOn(u, text, k - 2))
  }

  ghost predicate Tells(u: Unicode, text: string, k: nat)
    requires k < |text|
  {
    u.isSpace(text[k]) ==> JoinedOn(u, text, k)
  }

  /** Inside a token and about to decide about the character at `p`. */
  ghost predicate Deciding(u: Unicode, text: string, p: nat) {
    0 < p <= |text| && (p < |text| ==> !JoinedOn(u, text, p)) && Tells(u, text, p - 1)
  }

  /** The cluster scan has nothing left to take at `p`. */
  ghost predicate Rests(text: string, p: nat) {
    p + 1 < |text| ==> text[p] != ZWJ
  }

  /** A token or whitespace may start at `p`. */
  ghost predicate Between(u: Unicode, text: string, p: nat) {
    && p <= |text|
    && (p == 0 || (Deciding(u, text, p) && Rests(text, p))
        || (u.isSpace(text[p - 1]) && !JoinedOn(u, text, p - 1)))
  }

  ghost predicate Passed(u: Unicode, text: string, end: nat, r: nat) {
    && end <= r <= |text| && Deciding(u, text, r)
    && (forall k :: end <= k < r ==> Tells(u, text, k))
  }

  lemma {:induction false} ClusterPasses(u: Unicode, text: string, end: nat)
    requires Sane(u) && Deciding(u, text, end)
    ensures Passed(u, text, end, ClusterRest(u, text, end))
    ensures Rests(text, ClusterRest(u, text, end))
    decreases |text| - end
  {
    if end < |text| {
      if Extends(u, text[end]) {
        ClusterPasses(u, text, end + 1);
      } else if text[end] == ZWJ && end + 1 < |text| {
        assert JoinedOn(u, text, end + 1);
        ClusterPasses(u, text, end + 2);
      }
    }
  }

  lemma {:induction false} WordPasses(u: Unicode, text: string, end: nat, number: bool)
    requires Sane(u) && Deciding(u, text, end) && Rests(text, end)
    ensures Passed(u, text, end, WordRest(u, text, end, number))
    ensures Rests(text, WordRest(u, text, end, number))
    decreases |text| - end
  {
    hide Extends, Cjk, ClusterRest, Apostrophe;
    if end < |text| {
      if WordChar(u, text[end]) {
        ClusterPasses(u, text, end + 1);
        WordPasses(u, text, ClusterRest(u, text, end + 1), number && u.isDecimal(text[end]));
      } else if JoinsLetter(u, text, end) {
        ClusterPasses(u, text, end + 2);
        WordPasses(u, text, ClusterRest(u, text, end + 2), false);
      } else if number && JoinsDigit(u, text, end) {
        ClusterPasses(u, text, end + 2);
        WordPasses(u, text, ClusterRest(u, text, end + 2), number);
      }
    }
  }

  lemma {:induction false} TokenPasses(u: Unicode, text: string, start: nat)
    requires Sane(u) && start < |text| && Between(u, text, start) && !u.isSpace(text[start])
    ensures Passed(u, text, start, TokenEnd(u, text, start))
    ensures Between(u, text, TokenEnd(u, text, start))
  {
    ClusterPasses(u, text, start + 1);
    if WordChar(u, text[start]) {
      WordPasses(u, text, ClusterRest(u, text, start + 1), u.isDecimal(text[start]));
    }
  }

  lemma {:induction false} SpaceInsideFrom(u: Unicode, text: string, from: nat, k: nat)
    requires Sane(u) && from <= k < |text| && Between(u, text, from) && u.isSpace(text[k])
    ensures Covered(TokensFrom(u, text, from), k) <==> JoinedOn(u, text, k)
    decreases |text| - from
  {
    if u.isSpace(text[from]) {
      assert !JoinedOn(u, text, from);
      TokensOrdered(u, text, from + 1);
      if from < k { SpaceInsideFrom(u, text, from + 1, k); }
    } else {
      var end := TokenEnd(u, text, from);
      var ts, rest := TokensFrom(u, text, from), TokensFrom(u, text, end);
      TokenPasses(u, text, from);
      FirstToken(u, text, from);
      if k < end {
        assert ts[0].start <= k < ts[0].end;
        assert Tells(u, text, k);
      } else {
        SpaceInsideFrom(u, text, end, k);
        CoveredLater(ts, k);
      }
    }
  }

  lemma {:induction false} CoveredLater(ts: seq<Token>, k: nat)
    requires ts != [] && ts[0].end <= k
    ensures Covered(ts, k) <==> Covered(ts[1..], k)
  {
    if i :| 0 <= i < |ts| && ts[i].start <= k < ts[i].end {
      assert ts[1..][i - 1] == ts[i];
    }
    if i :| 0 <= i < |ts[1..]| && ts[1..][i].start <= k < ts[1..][i].end {
      assert ts[i + 1] == ts[1..][i];
    }
  }

  /** A whitespace character is part of a token exactly when a joiner swallows it. */
  lemma {:induction false} SpaceInsideIff(u: Unicode, text: string, k: nat)
    requires Sane(u) && k < |text| && u.isSpace(text[k])
    ensures Covered(Tokens(u, text), k) <==> JoinedOn(u, text, k)
  {
    SpaceInsideFrom(u, text, 0, k);
  }

  /** Tokens can hold whitespace: a letter, a joiner and a space are one token. */
  lemma {:induction false} TokenCanHoldSpace(u: Unicode)
    requires Sane(u) && u.isSpace(' ') && !u.isSpace('a')
    ensures Tokens(u, ['a', ZWJ, ' ']) == [Token(['a', ZWJ, ' '], 0, 3)]
  {
    var text := ['a', ZWJ, ' '];
    assert ClusterRest(u, text, 1) == ClusterRest(u, text, 3) == 3;
    assert TokenEnd(u, text, 0) == 3 by {
      assert WordRest(u, text, 3, u.isDecimal('a')) == 3;
    }
    FirstToken(u, text, 0);
    assert text[0..3] == text && TokensFrom(u, text, 3) == [];
    assert Tokens(u, text) == [Tokens(u, text)[0]] + Tokens(u, text)[1..];
  }

  // -------- How far a token goes

  /** Letters and digits are parts of words; joiners, marks of punctuation and spaces are not. */
  ghost predicate Usual(u: Unicode) {
    && Sane(u) && !u.isAlnum('.') && !u.isAlnum(',') && !u.isAlnum('\'') && !u.isAlnum('\U{2019}')
    && forall c :: u.isDecimal(c) || (u.isAlpha(c) && !Cjk(c)) ==> u.isAlnum(c) && !Cjk(c)
  }

  /** The joiner before `k`, in a token that starts at `s`, takes `k` with it. */
  predicate Absorbed(u: Unicode, text: string, s: nat, k: nat)
    requires k <= |text|
    decreases k
  {
    s + 2 <= k < |text| && text[k - 1] == ZWJ && !Extends(u, text[k - 1]) && !Absorbed(u, text, s, k - 1)
  }

  /** The character at `k` is part of the unit before it. */
  predicate Clings(u: Unicode, text: string, s: nat, k: nat)
    requires k < |text|
  {
    Absorbed(u, text, s, k) || Extends(u, text[k]) || (text[k] == ZWJ && k + 1 < |text|)
  }

  /** From `s` up to `k` there are only digits, points and commas, and what is attached to
      them. */
  ghost predicate Number(u: Unicode, text: string, s: nat, k: nat)
    requires s < k <= |text|
  {
    u.isDecimal(text[s])
    && forall j :: s < j < k && !Clings(u, text, s, j) ==> u.isDecimal(text[j]) || text[j] == '.' || text[j] == ','
  }

  /** A token that starts at `s` and holds everything before `k` goes on: with what is
      attached; and, if it is a word, with another letter, digit or underscore that is not
      Han or kana, with an apostrophe before such a letter, and inside a number with a
      point or comma before a digit. */
  ghost predicate Belongs(u: Unicode, text: string, s: nat, k: nat)
    requires s < k < |text|
  {
    || Clings(u, text, s, k)
    || ((u.isAlnum(text[s]) || text[s] == '_') && !Cjk(text[s])
        && (|| ((u.isAlnum(text[k]) || text[k] == '_') && !Cjk(text[k]))
            || ((text[k] == '\'' || text[k] == '\U{2019}') && k + 1 < |text|
                && u.isAlpha(text[k + 1]) && !Cjk(text[k + 1]))
            || ((text[k] == '.' || text[k] == ',') && k + 1 < |text| && u.isDecimal(text[k + 1])
                && Number(u, text, s, k))))
  }

  /** At `p` the next unit starts. */
  ghost predicate UnitAt(u: Unicode, text: string, s: nat, p: nat) {
    s < p <= |text| && (p < |text| ==> !Clings(u, text, s, p))
  }

  lemma {:induction false} ClusterAttaches(u: Unicode, text: string, s: nat, end: nat)
    requires s < end <= |text| && !Absorbed(u, text, s, end)
    ensures var r := ClusterRest(u, text, end);
      UnitAt(u, text, s, r) && forall k :: end <= k < r ==> Clings(u, text, s, k)
    decreases |text| - end
  {
    if end < |text| {
      if Extends(u, text[end]) {
        ClusterAttaches(u, text, s, end + 1);
      } else if text[end] == ZWJ && end + 1 < |text| {
        assert Absorbed(u, text, s, end + 1);
        ClusterAttaches(u, text, s, end + 2);
      }
    }
  }

  /** A letter or digit and what is attached to it. */
  lemma {:induction false} CharGoesOn(u: Unicode, text: string, s: nat, end: nat)
    requires Usual(u) && UnitAt(u, text, s, end) && WordChar(u, text[s]) && end < |text| && WordChar(u, text[end])
    ensures var next := ClusterRest(u, text, end + 1);
      && UnitAt(u, text, s, next) && (forall k :: end <= k < next ==> Belongs(u, text, s, k))
      && (Number(u, text, s, next) <==> Number(u, text, s, end) && u.isDecimal(text[end]))
  {
    assert text[end] != ZWJ;
    ClusterAttaches(u, text, s, end + 1);
    var next := ClusterRest(u, text, end + 1);
    hide Clings, Absorbed, Extends;
    assert forall j :: s < j < next && !Clings(u, text, s, j) ==> j < end || j == end;
  }

  /** An apostrophe before a letter, or in a number a point or comma before a digit. */
  lemma {:induction false} PairGoesOn(u: Unicode, text: string, s: nat, end: nat)
    requires Usual(u) && UnitAt(u, text, s, end) && WordChar(u, text[s]) && end < |text| && !WordChar(u, text[end])
    requires JoinsLetter(u, text, end) || (Number(u, text, s, end) && JoinsDigit(u, text, end))
    ensures var next := ClusterRest(u, text, end + 2);
      && UnitAt(u, text, s, next) && (forall k :: end <= k < next ==> Belongs(u, text, s, k))
      && (Number(u, text, s, next) <==> Number(u, text, s, end) && !JoinsLetter(u, text, end))
  {
    assert text[end + 1] != ZWJ && WordChar(u, text[end + 1]);
    ClusterAttaches(u, text, s, end + 2);
    var next := ClusterRest(u, text, end + 2);
    hide Clings, Absorbed, Extends;
    assert forall j :: s < j < next && !Clings(u, text, s, j) ==> j < end || j == end || j == end + 1;
  }

  lemma {:induction false} WordGoesOn(u: Unicode, text: string, s: nat, end: nat, number: bool)
    requires s < end <= |text| && Usual(u) && UnitAt(u, text, s, end) && WordChar(u, text[s])
    requires number <==> Number(u, text, s, end)
    ensures var r := WordRest(u, text, end, number);
      (forall k :: end <= k < r ==> Belongs(u, text, s, k)) && (r < |text| ==> !Belongs(u, text, s, r))
    decreases |text| - end
  {
    hide Belongs, Number, UnitAt, Usual;
    if end == |text| {
    } else if WordChar(u, text[end]) {
      CharGoesOn(u, text, s, end);
      WordGoesOn(u, text, s, ClusterRest(u, text, end + 1), number && u.isDecimal(text[end]));
    } else if JoinsLetter(u, text, end) || (number && JoinsDigit(u, text, end)) {
      PairGoesOn(u, text, s, end);
      WordGoesOn(u, text, s, ClusterRest(u, text, end + 2), number && !JoinsLetter(u, text, end));
    } else {
      StopsAt(u, text, s, end);
    }
  }

  lemma {:induction false} StopsAt(u: Unicode, text: string, s: nat, end: nat)
    requires UnitAt(u, text, s, end) && end < |text| && !WordChar(u, text[end])
    requires !JoinsLetter(u, text, end) && !(Number(u, text, s, end) && JoinsDigit(u, text, end))
    ensures !Belongs(u, text, s, end)
  {
    hide Clings, Number;
  }

  lemma {:induction false} TokenGoesOn(u: Unicode, text: string, s: nat)
    requires Usual(u) && s < |text|
    ensures var r := TokenEnd(u, text, s);
      (forall k :: s < k < r ==> Belongs(u, text, s, k)) && (r < |text| ==> !Belongs(u, text, s, r))
  {
    ClusterAttaches(u, text, s, s + 1);
    var cluster := ClusterRest(u, text, s + 1);
    hide Clings, Absorbed, Extends;
    if WordChar(u, text[s]) {
      assert Number(u, text, s, cluster) <==> u.isDecimal(text[s]);
      WordGoesOn(u, text, s, cluster, u.isDecimal(text[s]));
    }
  }

  lemma {:induction false} TokenEndsAt(u: Unicode, text: string, from: nat, i: nat)
    requires from <= |text| && i < |TokensFrom(u, text, from)|
    ensures var t := TokensFrom(u, text, from)[i]; t.start < |text| && t.end == TokenEnd(u, text, t.start)
    decreases |text| - from
  {
    if u.isSpace(text[from]) {
      TokenEndsAt(u, text, from + 1, i);
    } else if i > 0 {
      TokenEndsAt(u, text, TokenEnd(u, text, from), i - 1);
    }
  }

  /** A token that has come as far as `k` holds the character at `k` too if and only if
      that character is attached or joins the word. */
  lemma {:induction false} TokenGoesOnIff(u: Unicode, text: string, i: nat, k: nat)
    requires Usual(u) && i < |Tokens(u, text)| && Tokens(u, text)[i].start < k <= Tokens(u, text)[i].end && k < |text|
    ensures k < Tokens(u, text)[i].end <==> Belongs(u, text, Tokens(u, text)[i].start, k)
  {
    TokenEndsAt(u, text, 0, i);
    TokenGoesOn(u, text, Tokens(u, text)[i].start);
  }

  // -------- Shared prefixes of several hypotheses

  ghost predicate SharedAt<T>(sequences: seq<seq<T>>, i: nat) {
    && (forall k :: 0 <= k < |sequences| ==> i < |sequences[k]|)
    && (forall k :: 0 <= k < |sequences| ==> sequences[k][i] == sequences[0][i])
  }

  /** Length shared by every sequence, counted from `i`. */
  ghost function SharedFrom<T>(sequences: seq<seq<T>>, i: nat): (n: nat)
    requires sequences != [] && i <= |sequences[0]|
    ensures i <= n <= |sequences[0]|
    decreases |sequences[0]| - i
  {
    if SharedAt(sequences, i) then SharedFrom(sequences, i + 1) else i
  }

  ghost function SharedLength<T>(sequences: seq<seq<T>>): nat {
    if sequences == [] then 0 else SharedFrom(sequences, 0)
  }

  lemma {:induction false} SharedFromAgrees<T>(sequences: seq<seq<T>>, i: nat, k: nat)
    requires sequences != [] && i <= |sequences[0]| && k < |sequences|
    requires i <= |sequences[k]| && sequences[k][..i] == sequences[0][..i]
    ensures var n := SharedFrom(sequences, i);
      n <= |sequences[k]| && sequences[k][..n] == sequences[0][..n]
    decreases |sequences[0]| - i
  {
    if SharedAt(sequences, i) {
      assert sequences[k][..i + 1] == sequences[k][..i] + [sequences[k][i]];
      assert sequences[0][..i + 1] == sequences[0][..i] + [sequences[0][i]];
      SharedFromAgrees(sequences, i + 1, k);
    }
  }

  lemma {:induction false} SharedFromMaximal<T>(sequences: seq<seq<T>>, i: nat)
    requires sequences != [] && i <= |sequences[0]|
    ensures !SharedAt(sequences, SharedFrom(sequences, i))
    decreases |sequences[0]| - i
  {
    if SharedAt(sequences, i) {
      SharedFromMaximal(sequences, i + 1);
    }
  }

  method CommonPrefixLength<T(==)>(sequences: seq<seq<T>>) returns (n: nat)
    ensures n == SharedLength(sequences)
  {
    if sequences == [] {
      return 0;
    }
    var shortest := |sequences[0]|;
    for k := 0 to |sequences|
      invariant shortest <= |sequences[0]|
      invariant forall j :: 0 <= j < k ==> shortest <= |sequences[j]|
      invariant exists j :: 0 <= j < |sequences| && shortest == |sequences[j]|
    {
      if |sequences[k]| < shortest { shortest := |sequences[k]|; }
    }
    for index := 0 to shortest
      invariant SharedFrom(sequences, index) == SharedFrom(sequences, 0)
    {
      for k := 1 to |sequences|
        invariant forall j :: 0 <= j < k ==> sequences[j][index] == sequences[0][index]
      {
        if sequences[k][index] != sequences[0][index] {
          assert !SharedAt(sequences, index);
          return index;
        }
      }
      assert SharedAt(sequences, index);
    }
    var j :| 0 <= j < |sequences| && shortest == |sequences[j]|;
    assert !SharedAt(sequences, shortest);
    return shortest;
  }
}
