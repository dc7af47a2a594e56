/** What the sender of a message does with its mentions: shifting them with the trimmed body,
    and listing the mentioned users. */
module MentionNormalization {
  import opened CodeUnits
  import opened Mentions

  /** The characters with the White_Space property. */
  predicate IsSpace(r: Scalar) {
    || 0x09 <= r <= 0x0D || r == 0x20 || r == 0x85 || r == 0xA0 || r == 0x1680
    || 0x2000 <= r <= 0x200A || r == 0x2028 || r == 0x2029 || r == 0x202F || r == 0x205F || r == 0x3000
  }

  function TrimLeft(text: seq<Scalar>): (trimmed: seq<Scalar>)
    ensures |trimmed| <= |text| && trimmed == text[|text| - |trimmed|..]
  {
    if text != [] && IsSpace(text[0]) then TrimLeft(text[1..]) else text
  }

  function TrimRight(text: seq<Scalar>): (trimmed: seq<Scalar>)
    ensures trimmed <= text
  {
    if text != [] && IsSpace(text[|text| - 1]) then TrimRight(text[..|text| - 1]) else text
  }

  function Shift(text: seq<Scalar>): nat {
    |Utf16(text[..|text| - |TrimLeft(text)|])|
  }

  method NormalizeMentionOffsets(text: seq<Scalar>, mentions: seq<Mention>) returns (normalized: seq<Mention>, ok: bool)
    ensures ok <==> forall m <- mentions :: Shift(text) <= m.start && Shift(text) <= m.end
    ensures ok ==> |normalized| == |mentions|
                   && forall i :: 0 <= i < |mentions| ==>
                        normalized[i] == Mention(mentions[i].user, mentions[i].start - Shift(text), mentions[i].end - Shift(text))
  {
    var prefix := text[..|text| - |TrimLeft(text)|];
    var shift := |Utf16(prefix)|;
    assert shift == Shift(text);
    hide *;
    normalized, ok := ShiftMentions(mentions, shift);
  }

  method ShiftMentions(mentions: seq<Mention>, shift: nat) returns (normalized: seq<Mention>, ok: bool)
    ensures ok <==> forall m <- mentions :: shift <= m.start && shift <= m.end
    ensures ok ==> |normalized| == |mentions|
                   && forall i :: 0 <= i < |mentions| ==>
                        normalized[i] == Mention(mentions[i].user, mentions[i].start - shift, mentions[i].end - shift)
  {
    normalized := [];
    for i := 0 to |mentions|
      invariant |normalized| == i
      invariant forall j :: 0 <= j < i ==> shift <= mentions[j].start && shift <= mentions[j].end
      invariant forall j :: 0 <= j < i ==> normalized[j] == Mention(mentions[j].user, mentions[j].start - shift, mentions[j].end - shift)
    {
      var m := mentions[i];
      if m.start < shift || m.end < shift {
        assert m in mentions;
        return [], false;
      }
      normalized := normalized + [m.(start := m.start - shift, end := m.end - shift)];
    }
    return normalized, true;
  }

  lemma {:induction false} Utf16OfConcat(a: seq<Scalar>, b: seq<Scalar>)
    ensures Utf16(a + b) == Utf16(a) + Utf16(b)
    decreases |b|
  {
    if b == [] {
      assert a + b == a;
    } else {
      assert (a + b)[..|a + b| - 1] == a + b[..|b| - 1];
      Utf16OfConcat(a, b[..|b| - 1]);
      assert (a + b)[|a + b| - 1] == b[|b| - 1];
    }
  }

  /** A mention the sender accepts after trimming spells what the submitted range spelled. */
  lemma {:induction false} NormalizedSpellsTheSame(text: seq<Scalar>, m: Mention, n: Mention)
    requires n == Mention(m.user, m.start - Shift(text), m.end - Shift(text))
    requires 0 <= n.start <= n.end <= |Utf16(TrimRight(TrimLeft(text)))|
    ensures 0 <= m.start <= m.end <= |Utf16(text)|
    ensures Utf16(TrimRight(TrimLeft(text)))[n.start..n.end] == Utf16(text)[m.start..m.end]
  {
    TrimmedParts(text);
    var left := TrimLeft(text);
    var body := TrimRight(left);
    hide Utf16, TrimLeft, TrimRight, Shift;
  }

  lemma TrimmedParts(text: seq<Scalar>)
    ensures var left := TrimLeft(text);
            var body := TrimRight(left);
            && Utf16(text) == Utf16(text[..|text| - |left|]) + (Utf16(body) + Utf16(left[|body|..]))
            && Shift(text) == |Utf16(text[..|text| - |left|])|
  {
    hide Utf16, TrimLeft, TrimRight;
    var left := TrimLeft(text);
    var body := TrimRight(left);
    var before, after := text[..|text| - |left|], left[|body|..];
    Utf16OfConcat(before, left);
    Utf16OfConcat(body, after);
    assert text == before + left;
    assert left == body + after;
  }

  // ----- Mentioned users -----

  /** The users in the order in which they are first mentioned, each once. */
  function FirstSeen(mentions: seq<Mention>): seq<nat> {
    if mentions == [] then []
    else
      var seen := FirstSeen(mentions[..|mentions| - 1]);
      seen + if mentions[|mentions| - 1].user in seen then [] else [mentions[|mentions| - 1].user]
  }

  predicate Mentioned(mentions: seq<Mention>, user: nat) {
    exists m <- mentions :: m.user == user
  }

  /** The position of the first mention of a user. */
  function FirstMention(mentions: seq<Mention>, user: nat): nat {
    if mentions == [] then 0
    else if mentions[0].user == user then 0
    else 1 + FirstMention(mentions[1..], user)
  }

  method MentionUserIds(mentions: seq<Mention>) returns (ids: seq<nat>)
    ensures ids == FirstSeen(mentions)
  {
    var seen := {};
    ids := [];
    for n := 0 to |mentions|
      invariant seen == set u <- ids
      invariant ids == FirstSeen(mentions[..n])
    {
      assert mentions[..n + 1][..n] == mentions[..n];
      if mentions[n].user in seen { continue; }
      seen := seen + {mentions[n].user};
      ids := ids + [mentions[n].user];
    }
    assert mentions[..|mentions|] == mentions;
  }

  lemma {:induction false} FirstMentionExtends(mentions: seq<Mention>, m: Mention, user: nat)
    ensures FirstMention(mentions + [m], user) ==
            if Mentioned(mentions, user) then FirstMention(mentions, user) else |mentions| + if m.user == user then 0 else 1
    ensures Mentioned(mentions, user) ==> FirstMention(mentions, user) < |mentions|
    decreases |mentions|
  {
    if mentions == [] {
      assert mentions + [m] == [m];
    } else {
      assert (mentions + [m])[0] == mentions[0] && (mentions + [m])[1..] == mentions[1..] + [m];
      FirstMentionExtends(mentions[1..], m, user);
      assert forall n :: n in mentions <==> n == mentions[0] || n in mentions[1..];
    }
  }

  /** Every mentioned user is listed once, in the order of the first mentions. */
  lemma {:induction false} FirstSeenInOrder(mentions: seq<Mention>)
    ensures forall u :: u in FirstSeen(mentions) <==> Mentioned(mentions, u)
    ensures forall i, j :: 0 <= i < j < |FirstSeen(mentions)| ==>
              FirstSeen(mentions)[i] != FirstSeen(mentions)[j]
              && FirstMention(mentions, FirstSeen(mentions)[i]) < FirstMention(mentions, FirstSeen(mentions)[j])
    decreases |mentions|
  {
    if mentions != [] {
      var rest, last := mentions[..|mentions| - 1], mentions[|mentions| - 1];
      FirstSeenInOrder(rest);
      assert mentions == rest + [last];
      assert forall n :: n in mentions <==> n in rest || n == last;
      var before, ids := FirstSeen(rest), FirstSeen(mentions);
      forall i | 0 <= i < |ids| ensures FirstMention(mentions, ids[i]) == if i < |before| then FirstMention(rest, ids[i]) else |rest| {
        FirstMentionExtends(rest, last, ids[i]);
        if i < |before| { assert before[i] in before; }
      }
      forall i | 0 <= i < |before| ensures FirstMention(rest, before[i]) < |rest| && (before[i] != last.user || last.user in before) {
        assert before[i] in before;
        FirstMentionExtends(rest, last, before[i]);
      }
      hide FirstMention, Mentioned;
    }
  }

  /** Trimming takes away white space at both ends and nothing else, and all of it. */
  lemma {:induction false} TrimmedExactly(text: seq<Scalar>)
    ensures var left, right := TrimLeft(text), TrimRight(text);
            && (forall r <- text[..|text| - |left|] :: IsSpace(r)) && (left != [] ==> !IsSpace(left[0]))
            && (forall r <- text[|right|..] :: IsSpace(r)) && (right != [] ==> !IsSpace(right[|right| - 1]))
  {
    LeftIsTrimmed(text);
    RightIsTrimmed(text);
    hide TrimLeft, TrimRight, IsSpace;
  }

  lemma {:induction false} LeftIsTrimmed(text: seq<Scalar>)
    ensures var left := TrimLeft(text);
            (forall r <- text[..|text| - |left|] :: IsSpace(r)) && (left != [] ==> !IsSpace(left[0]))
    decreases |text|
  {
    if text != [] && IsSpace(text[0]) {
      LeftIsTrimmed(text[1..]);
      var n := |text| - |TrimLeft(text)|;
      assert text[..n] == [text[0]] + text[1..][..n - 1];
    }
  }

  lemma {:induction false} RightIsTrimmed(text: seq<Scalar>)
    ensures var right := TrimRight(text);
            (forall r <- text[|right|..] :: IsSpace(r)) && (right != [] ==> !IsSpace(right[|right| - 1]))
    decreases |text|
  {
    if text != [] && IsSpace(text[|text| - 1]) {
      var rest := text[..|text| - 1];
      RightIsTrimmed(rest);
      assert text[|TrimRight(text)|..] == rest[|TrimRight(text)|..] + [text[|text| - 1]];
    }
  }
}
