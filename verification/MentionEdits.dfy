/** The mention ranges that survive an edit of the text in the browser. */
module MentionEdits {
  import opened CodeUnits
  import opened Mentions

  function CommonPrefix(a: seq<Unit>, b: seq<Unit>): (n: nat)
    ensures n <= |a| && n <= |b|
  {
    if a != [] && b != [] && a[0] == b[0] then 1 + CommonPrefix(a[1..], b[1..]) else 0
  }

  function CommonSuffix(a: seq<Unit>, b: seq<Unit>): (n: nat)
    ensures n <= |a| && n <= |b|
  {
    if a != [] && b != [] && a[|a| - 1] == b[|b| - 1] then 1 + CommonSuffix(a[..|a| - 1], b[..|b| - 1]) else 0
  }

  /** The common start agrees, and no longer start does. */
  lemma {:induction false} CommonPrefixAgrees(a: seq<Unit>, b: seq<Unit>)
    ensures forall k :: 0 <= k < CommonPrefix(a, b) ==> a[k] == b[k]
    ensures var n := CommonPrefix(a, b); n < |a| && n < |b| ==> a[n] != b[n]
    decreases |a|
  {
    if a != [] && b != [] && a[0] == b[0] {
      CommonPrefixAgrees(a[1..], b[1..]);
      forall k | 0 < k < CommonPrefix(a, b) ensures a[k] == b[k] {
        assert a[1..][k - 1] == b[1..][k - 1];
      }
    }
  }

  /** The common end agrees, and no longer end does. */
  lemma {:induction false} CommonSuffixAgrees(a: seq<Unit>, b: seq<Unit>)
    ensures forall k :: |a| - CommonSuffix(a, b) <= k < |a| ==> a[k] == b[k + |b| - |a|]
    ensures var n := CommonSuffix(a, b); n < |a| && n < |b| ==> a[|a| - n - 1] != b[|b| - n - 1]
    decreases |a|
  {
    if a != [] && b != [] && a[|a| - 1] == b[|b| - 1] {
      var c, d := a[..|a| - 1], b[..|b| - 1];
      CommonSuffixAgrees(c, d);
      forall k | |a| - CommonSuffix(a, b) <= k < |a| - 1 ensures a[k] == b[k + |b| - |a|] {
        assert c[k] == d[k + |d| - |c|];
      }
    }
  }

  predicate Kept(m: Mention, prefix: int, oldEnd: int) {
    m.end <= prefix || oldEnd <= m.start
  }

  function Moved(m: Mention, prefix: int, delta: int): Mention {
    if m.end <= prefix then m else m.(start := m.start + delta, end := m.end + delta)
  }

  /** The mentions outside the edited stretch, moved with their text. */
  function Updated(mentions: seq<Mention>, prefix: int, oldEnd: int, delta: int): seq<Mention> {
    if mentions == [] then []
    else
      var m := mentions[|mentions| - 1];
      Updated(mentions[..|mentions| - 1], prefix, oldEnd, delta) + if Kept(m, prefix, oldEnd) then [Moved(m, prefix, delta)] else []
  }

  /** The edit replaces what lies between the common start and the common end. */
  function EditEnd(previous: seq<Unit>, next: seq<Unit>): int {
    var prefix := CommonPrefix(previous, next);
    |previous| - CommonSuffix(previous[prefix..], next[prefix..])
  }

  function Update(previous: seq<Unit>, next: seq<Unit>, mentions: seq<Mention>): seq<Mention> {
    Updated(mentions, CommonPrefix(previous, next), EditEnd(previous, next), |next| - |previous|)
  }

  method FindPrefix(previous: seq<Unit>, next: seq<Unit>) returns (prefix: nat)
    ensures prefix == CommonPrefix(previous, next)
  {
    prefix := 0;
    while prefix < |previous| && prefix < |next| && previous[prefix] == next[prefix]
      invariant prefix <= |previous| && prefix <= |next|
      invariant prefix + CommonPrefix(previous[prefix..], next[prefix..]) == CommonPrefix(previous, next)
    {
      assert previous[prefix..][1..] == previous[prefix + 1..] && next[prefix..][1..] == next[prefix + 1..];
      prefix := prefix + 1;
    }
  }

  lemma SuffixStep(a: seq<Unit>, b: seq<Unit>)
    ensures CommonSuffix(a, b) ==
            if a != [] && b != [] && a[|a| - 1] == b[|b| - 1] then 1 + CommonSuffix(a[..|a| - 1], b[..|b| - 1]) else 0
  {
  }

  /** What is left of a body between a start and an end of given lengths. */
  function Inner(body: seq<Unit>, prefix: nat, suffix: nat): seq<Unit>
    requires prefix + suffix <= |body|
  {
    body[prefix..|body| - suffix]
  }

  lemma InnerShrinks(body: seq<Unit>, prefix: nat, suffix: nat)
    requires prefix + suffix <= |body|
    ensures suffix == 0 ==> Inner(body, prefix, suffix) == body[prefix..]
    ensures |Inner(body, prefix, suffix)| == |body| - prefix - suffix
    ensures prefix + suffix < |body| ==>
      var inner := Inner(body, prefix, suffix);
      inner[|inner| - 1] == body[|body| - suffix - 1] && inner[..|inner| - 1] == Inner(body, prefix, suffix + 1)
  {
  }

  method FindSuffix(previous: seq<Unit>, next: seq<Unit>, prefix: nat) returns (suffix: nat)
    requires prefix <= |previous| && prefix <= |next|
    ensures suffix == CommonSuffix(previous[prefix..], next[prefix..])
  {
    hide CommonSuffix, Inner;
    suffix := 0;
    InnerShrinks(previous, prefix, suffix);
    InnerShrinks(next, prefix, suffix);
    SuffixStep(Inner(previous, prefix, suffix), Inner(next, prefix, suffix));
    while suffix < |previous| - prefix && suffix < |next| - prefix
          && previous[|previous| - suffix - 1] == next[|next| - suffix - 1]
      invariant prefix + suffix <= |previous| && prefix + suffix <= |next|
      invariant suffix + CommonSuffix(Inner(previous, prefix, suffix), Inner(next, prefix, suffix))
             == CommonSuffix(previous[prefix..], next[prefix..])
    {
      InnerShrinks(previous, prefix, suffix);
      InnerShrinks(next, prefix, suffix);
      SuffixStep(Inner(previous, prefix, suffix), Inner(next, prefix, suffix));
      suffix := suffix + 1;
    }
    InnerShrinks(previous, prefix, suffix);
    InnerShrinks(next, prefix, suffix);
    SuffixStep(Inner(previous, prefix, suffix), Inner(next, prefix, suffix));
  }

  method MoveRanges(mentions: seq<Mention>, prefix: int, oldEnd: int, delta: int) returns (updated: seq<Mention>)
    ensures updated == Updated(mentions, prefix, oldEnd, delta)
  {
    updated := [];
    for i := 0 to |mentions|
      invariant updated == Updated(mentions[..i], prefix, oldEnd, delta)
    {
      var m := mentions[i];
      assert mentions[..i + 1][..i] == mentions[..i];
      if m.end <= prefix {
        updated := updated + [m];
      } else if m.start >= oldEnd {
        updated := updated + [m.(start := m.start + delta, end := m.end + delta)];
      }
    }
    assert mentions[..|mentions|] == mentions;
  }

  method UpdateMentionRanges(previous: seq<Unit>, next: seq<Unit>, mentions: seq<Mention>) returns (updated: seq<Mention>)
    ensures updated == Update(previous, next, mentions)
  {
    hide CommonPrefix, CommonSuffix, Updated;
    var prefix := FindPrefix(previous, next);
    var suffix := FindSuffix(previous, next, prefix);
    var oldEnd, newEnd := |previous| - suffix, |next| - suffix;
    updated := MoveRanges(mentions, prefix, oldEnd, newEnd - oldEnd);
  }

  /** Both bodies agree before the edit, and after it when shifted. */
  ghost predicate Edit(previous: seq<Unit>, next: seq<Unit>, prefix: int, oldEnd: int, delta: int) {
    && delta == |next| - |previous|
    && 0 <= prefix <= oldEnd <= |previous| && prefix <= oldEnd + delta
    && (forall k :: 0 <= k < prefix ==> next[k] == previous[k])
    && (forall k :: oldEnd <= k < |previous| ==> next[k + delta] == previous[k])
  }

  lemma {:induction false} EditFound(previous: seq<Unit>, next: seq<Unit>)
    ensures Edit(previous, next, CommonPrefix(previous, next), EditEnd(previous, next), |next| - |previous|)
  {
    hide CommonPrefix, CommonSuffix;
    var prefix := CommonPrefix(previous, next);
    var oldEnd, delta := EditEnd(previous, next), |next| - |previous|;
    CommonPrefixAgrees(previous, next);
    forall k | oldEnd <= k < |previous| ensures next[k + delta] == previous[k] {
      AgreeAfter(previous, next, k);
    }
  }

  lemma AgreeAfter(previous: seq<Unit>, next: seq<Unit>, k: int)
    requires EditEnd(previous, next) <= k < |previous|
    ensures 0 <= k + |next| - |previous| < |next| && next[k + |next| - |previous|] == previous[k]
  {
    hide CommonPrefix, CommonSuffix;
    var prefix := CommonPrefix(previous, next);
    var a, b := previous[prefix..], next[prefix..];
    CommonSuffixAgrees(a, b);
    assert a[k - prefix] == previous[k];
    assert b[k - prefix + |b| - |a|] == next[k + |next| - |previous|];
  }

  /** Every kept mention still spells the same text for the same user. */
  lemma {:induction false} SameText(previous: seq<Unit>, next: seq<Unit>, m: Mention, prefix: int, oldEnd: int, delta: int)
    requires Edit(previous, next, prefix, oldEnd, delta)
    requires 0 <= m.start <= m.end <= |previous| && Kept(m, prefix, oldEnd)
    ensures var n := Moved(m, prefix, delta);
            && 0 <= n.start <= n.end <= |next| && n.user == m.user
            && next[n.start..n.end] == previous[m.start..m.end]
  {
    var n := Moved(m, prefix, delta);
    forall k | 0 <= k < m.end - m.start ensures next[n.start..n.end][k] == previous[m.start..m.end][k] {
      assert next[n.start + k] == previous[m.start + k];
    }
  }

  /** A moved range is accepted, except that one ending where the edit begins may split. */
  lemma {:induction false} MovedRange(previous: seq<Unit>, next: seq<Unit>, m: Mention, from: int, to: int,
                                      prefix: int, oldEnd: int, delta: int)
    requires Edit(previous, next, prefix, oldEnd, delta)
    requires LocalAcceptsRange(previous, from, m) && Kept(m, prefix, oldEnd)
    requires to <= Moved(m, prefix, delta).start
    ensures LocalAcceptsRange(next, to, Moved(m, prefix, delta)) <==> !(m.end == prefix && Splits(next, prefix))
  {
    var n := Moved(m, prefix, delta);
    assert next[n.start] == previous[m.start] && next[n.end - 1] == previous[m.end - 1];
    if m.end < prefix {
      assert next[m.end] == previous[m.end];
    } else if m.end > prefix && m.end < |previous| {
      assert next[n.end] == previous[m.end];
    }
  }

  lemma {:induction false} UpdatedSize(mentions: seq<Mention>, prefix: int, oldEnd: int, delta: int)
    ensures |Updated(mentions, prefix, oldEnd, delta)| <= |mentions|
    decreases |mentions|
  {
    if mentions != [] { UpdatedSize(mentions[..|mentions| - 1], prefix, oldEnd, delta); }
  }

  ghost predicate Broken(next: seq<Unit>, mentions: seq<Mention>, prefix: int) {
    Splits(next, prefix) && exists m <- mentions :: m.end == prefix
  }

  /** The updated ranges are in order and accepted, unless one is broken by the edit. */
  lemma {:induction false} UpdatedRanges(previous: seq<Unit>, next: seq<Unit>, mentions: seq<Mention>, prefix: int, oldEnd: int, delta: int)
    requires Edit(previous, next, prefix, oldEnd, delta) && LocalAcceptsAll(previous, mentions)
    ensures var updated := Updated(mentions, prefix, oldEnd, delta);
            && (LocalAcceptsAll(next, updated) <==> !Broken(next, mentions, prefix))
            && ((LastEnd(updated) <= prefix && LastEnd(updated) <= LastEnd(mentions))
                || (prefix < LastEnd(mentions) && LastEnd(updated) <= LastEnd(mentions) + delta))
    decreases |mentions|
  {
    hide Edit, Splits;
    EditShape(previous, next, prefix, oldEnd, delta);
    if mentions != [] {
      var rest, m := mentions[..|mentions| - 1], mentions[|mentions| - 1];
      var kept := Updated(rest, prefix, oldEnd, delta);
      var updated := Updated(mentions, prefix, oldEnd, delta);
      UpdatedRanges(previous, next, rest, prefix, oldEnd, delta);
      assert mentions == rest + [m];
      hide LocalAcceptsRange, Broken;
      if Kept(m, prefix, oldEnd) {
        assert updated[..|updated| - 1] == kept;
        MovedRange(previous, next, m, LastEnd(rest), LastEnd(kept), prefix, oldEnd, delta);
      } else {
        assert updated == kept;
      }
    }
  }

  lemma EditShape(previous: seq<Unit>, next: seq<Unit>, prefix: int, oldEnd: int, delta: int)
    requires Edit(previous, next, prefix, oldEnd, delta)
    ensures 0 <= prefix <= oldEnd && prefix <= oldEnd + delta
  {
  }

  /** An edit turns a valid list into a valid list exactly when it does not complete a
      surrogate pair right after a mention. */
  lemma {:induction false} EditKeepsValid(previous: seq<Unit>, next: seq<Unit>, mentions: seq<Mention>)
    requires LocalAccepts(previous, mentions)
    ensures var prefix := CommonPrefix(previous, next);
            LocalAccepts(next, Update(previous, next, mentions)) <==> !(Splits(next, prefix) && exists m <- mentions :: m.end == prefix)
  {
    hide CommonPrefix, Splits, EditEnd, Updated, LocalAcceptsAll, Edit;
    var prefix, oldEnd, delta := CommonPrefix(previous, next), EditEnd(previous, next), |next| - |previous|;
    EditFound(previous, next);
    UpdatedRanges(previous, next, mentions, prefix, oldEnd, delta);
    UpdatedSize(mentions, prefix, oldEnd, delta);
  }

  lemma {:induction false} NoHighBeforeBoundary(text: seq<Scalar>, offset: int)
    requires 0 < offset <= |Utf16(text)| && !Splits(Utf16(text), offset)
    ensures !IsHigh(Utf16(text)[offset - 1])
    decreases |text|
  {
    var rest := text[..|text| - 1];
    var before, last := Utf16(rest), Encode(text[|text| - 1]);
    assert Utf16(text) == before + last;
    if offset <= |before| {
      if offset < |before| { assert Utf16(text)[offset] == before[offset]; }
      NoHighBeforeBoundary(rest, offset);
    } else {
      assert Utf16(text)[offset - 1] == last[offset - 1 - |before|];
    }
  }

  lemma {:induction false} WellFormedIsNotBroken(text: seq<Scalar>, next: seq<Unit>, mentions: seq<Mention>)
    requires LocalAccepts(Utf16(text), mentions)
    ensures !Broken(next, mentions, CommonPrefix(Utf16(text), next))
  {
    hide Utf16, CommonPrefix;
    var previous := Utf16(text);
    var prefix := CommonPrefix(previous, next);
    if Broken(next, mentions, prefix) {
      var i :| 0 <= i < |mentions| && mentions[i].end == prefix;
      LocalRejectsLonger(previous, mentions, i + 1);
      NoHighBeforeBoundary(text, prefix);
      CommonPrefixAgrees(previous, next);
      assert false;
    }
  }

  /** Whatever a well-formed text is edited into, the updated list is valid for the result,
      and the mentions outside the edit still spell the same text for the same user. */
  lemma {:induction false} EditOfWellFormedText(text: seq<Scalar>, next: seq<Unit>, mentions: seq<Mention>)
    requires LocalAccepts(Utf16(text), mentions)
    ensures LocalAccepts(next, Update(Utf16(text), next, mentions))
    ensures var previous := Utf16(text);
            var prefix, oldEnd, delta := CommonPrefix(previous, next), EditEnd(previous, next), |next| - |previous|;
            forall m <- mentions :: Kept(m, prefix, oldEnd) ==>
              var n := Moved(m, prefix, delta);
              && 0 <= m.start <= m.end <= |previous| && 0 <= n.start <= n.end <= |next|
              && n.user == m.user && next[n.start..n.end] == previous[m.start..m.end]
  {
    hide Utf16, CommonPrefix, EditEnd, Update, LocalAcceptsAll, Edit, Splits;
    var previous := Utf16(text);
    var prefix, oldEnd, delta := CommonPrefix(previous, next), EditEnd(previous, next), |next| - |previous|;
    WellFormedIsNotBroken(text, next, mentions);
    EditKeepsValid(previous, next, mentions);
    EditFound(previous, next);
    ValidRanges(previous, mentions);
    forall m <- mentions | Kept(m, prefix, oldEnd)
      ensures var n := Moved(m, prefix, delta);
              && 0 <= m.start <= m.end <= |previous| && 0 <= n.start <= n.end <= |next|
              && n.user == m.user && next[n.start..n.end] == previous[m.start..m.end]
    {
      SameText(previous, next, m, prefix, oldEnd, delta);
    }
  }

  /** Nothing is invented: the updated list consists of the kept mentions, moved. */
  lemma {:induction false} UpdatedAreKept(mentions: seq<Mention>, prefix: int, oldEnd: int, delta: int)
    ensures forall n :: n in Updated(mentions, prefix, oldEnd, delta) <==>
              exists m <- mentions :: Kept(m, prefix, oldEnd) && n == Moved(m, prefix, delta)
    decreases |mentions|
  {
    if mentions != [] {
      var rest, last := mentions[..|mentions| - 1], mentions[|mentions| - 1];
      UpdatedAreKept(rest, prefix, oldEnd, delta);
      assert forall m :: m in mentions <==> m in rest || m == last by {
        assert mentions == rest + [last];
      }
      hide Kept, Moved;
    }
  }

  /** A body with a lone surrogate shows why the text must be well formed. */
  lemma {:induction false} LoneSurrogateBreaksAnEdit()
    ensures var previous, next, mentions := [AT_SIGN, 0xD800], [AT_SIGN, 0xD800, 0xDC00], [Mention(1, 0, 2)];
            LocalAccepts(previous, mentions) && !LocalAccepts(next, Update(previous, next, mentions))
  {
    var previous, next, mentions := [AT_SIGN, 0xD800], [AT_SIGN, 0xD800, 0xDC00], [Mention(1, 0, 2)];
    assert mentions[0] in mentions && mentions[0].end == 2 && Splits(next, 2);
    OneMention(previous, mentions[0]);
    hide LocalAccepts, CommonPrefix, Update;
    EditKeepsValid(previous, next, mentions);
  }

  lemma OneMention(body: seq<Unit>, m: Mention)
    requires LocalAcceptsRange(body, 0, m)
    ensures LocalAccepts(body, [m])
  {
    assert [m][..0] == [];
  }

}
