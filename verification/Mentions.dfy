/** Mention ranges over UTF-16 offsets: the server's boundary scan, the browser's local
    test, and the segments of a text. */
module Mentions {
  import opened CodeUnits

  const MAX_MENTIONS := 16

  /** Half-open offsets; the zero user is no user. */
  datatype Mention = Mention(user: nat, start: int, end: int)

  datatype Segment = Segment(text: seq<Unit>, mentioned: bool)

  // ----- The server's scan -----

  /** The offsets at which a scalar value begins, and the length. */
  function Boundaries(text: seq<Scalar>): set<int> {
    if text == [] then {0} else Boundaries(text[..|text| - 1]) + {|Utf16(text)|}
  }

  function AtSigns(text: seq<Scalar>): set<int> {
    if text == [] then {}
    else AtSigns(text[..|text| - 1]) + if text[|text| - 1] == AT_SIGN then {|Utf16(text[..|text| - 1])|} else {}
  }

  /** Where the list so far ends. */
  function LastEnd(mentions: seq<Mention>): int {
    if mentions == [] then 0 else mentions[|mentions| - 1].end
  }

  predicate ScanAcceptsRange(text: seq<Scalar>, from: int, m: Mention) {
    && m.user != 0 && 0 <= m.start && m.start + 1 < m.end <= |Utf16(text)|
    && m.start in AtSigns(text) && m.start in Boundaries(text) && m.end in Boundaries(text)
    && from <= m.start
  }

  predicate ScanAcceptsAll(text: seq<Scalar>, mentions: seq<Mention>) {
    mentions == []
    || (ScanAcceptsAll(text, mentions[..|mentions| - 1])
        && ScanAcceptsRange(text, LastEnd(mentions[..|mentions| - 1]), mentions[|mentions| - 1]))
  }

  predicate ScanAccepts(text: seq<Scalar>, mentions: seq<Mention>) {
    |mentions| <= MAX_MENTIONS && ScanAcceptsAll(text, mentions)
  }

  lemma {:induction false} ScanRejectsLonger(text: seq<Scalar>, mentions: seq<Mention>, i: nat)
    requires i <= |mentions| && !ScanAcceptsAll(text, mentions[..i])
    ensures !ScanAcceptsAll(text, mentions)
    decreases |mentions|
  {
    if i == |mentions| {
      assert mentions[..i] == mentions;
    } else {
      assert mentions[..|mentions| - 1][..i] == mentions[..i];
      ScanRejectsLonger(text, mentions[..|mentions| - 1], i);
    }
  }

  lemma Extended(text: seq<Scalar>, i: nat)
    requires i < |text|
    ensures text[..i + 1][..i] == text[..i]
    ensures Utf16(text[..i + 1]) == Utf16(text[..i]) + Encode(text[i])
  {
    assert text[..i + 1][..i] == text[..i];
  }

  method ValidateMentions(text: seq<Scalar>, mentions: seq<Mention>) returns (valid: bool)
    ensures valid == ScanAccepts(text, mentions)
  {
    if |mentions| > MAX_MENTIONS { return false; }
    var length := |Utf16(text)|;
    var boundaries, atSignOffsets := {0, length}, {};
    var offset, position := 0, 0;
    while position < |text|
      invariant 0 <= position <= |text| && offset == |Utf16(text[..position])|
      invariant boundaries == Boundaries(text[..position]) + {length}
      invariant atSignOffsets == AtSigns(text[..position])
    {
      var r := text[position];
      Extended(text, position);
      if r == AT_SIGN {
        atSignOffsets := atSignOffsets + {offset};
      }
      offset := offset + |Encode(r)|;
      boundaries := boundaries + {offset};
      position := position + 1;
    }
    assert text[..|text|] == text;
    valid := ScanRanges(text, length, boundaries, atSignOffsets, mentions);
  }

  method ScanRanges(text: seq<Scalar>, length: nat, boundaries: set<int>, atSignOffsets: set<int>, mentions: seq<Mention>)
    returns (valid: bool)
    requires length == |Utf16(text)| && boundaries == Boundaries(text) && atSignOffsets == AtSigns(text)
    ensures valid == ScanAcceptsAll(text, mentions)
  {
    hide Utf16, Boundaries, AtSigns;
    var lastEnd := 0;
    for i := 0 to |mentions|
      invariant ScanAcceptsAll(text, mentions[..i])
      invariant lastEnd == LastEnd(mentions[..i]) && 0 <= lastEnd
    {
      var m := mentions[i];
      assert mentions[..i + 1][..i] == mentions[..i];
      if m.user == 0 || m.start < 0 || m.end <= m.start + 1 || m.end > length
         || m.start !in atSignOffsets || m.start !in boundaries || m.end !in boundaries
         || (i > 0 && m.start < lastEnd)
      {
        ScanRejectsLonger(text, mentions, i + 1);
        return false;
      }
      lastEnd := m.end;
    }
    assert mentions[..|mentions|] == mentions;
    return true;
  }

  // ----- The browser's test -----

  predicate Splits(body: seq<Unit>, offset: int) {
    0 < offset < |body| && IsHigh(body[offset - 1]) && IsLow(body[offset])
  }

  predicate LocalAcceptsRange(body: seq<Unit>, from: int, m: Mention) {
    && m.user != 0
    && from <= m.start && 0 <= m.start && m.start + 1 < m.end <= |body|
    && body[m.start] == AT_SIGN && !Splits(body, m.start) && !Splits(body, m.end)
  }

  predicate LocalAcceptsAll(body: seq<Unit>, mentions: seq<Mention>) {
    mentions == []
    || (LocalAcceptsAll(body, mentions[..|mentions| - 1])
        && LocalAcceptsRange(body, LastEnd(mentions[..|mentions| - 1]), mentions[|mentions| - 1]))
  }

  predicate LocalAccepts(body: seq<Unit>, mentions: seq<Mention>) {
    |mentions| <= MAX_MENTIONS && LocalAcceptsAll(body, mentions)
  }

  lemma {:induction false} LocalRejectsLonger(body: seq<Unit>, mentions: seq<Mention>, i: nat)
    requires i <= |mentions|
    ensures LocalAcceptsAll(body, mentions) ==> LocalAcceptsAll(body, mentions[..i])
    decreases |mentions|
  {
    if i == |mentions| {
      assert mentions[..i] == mentions;
    } else {
      assert mentions[..|mentions| - 1][..i] == mentions[..i];
      LocalRejectsLonger(body, mentions[..|mentions| - 1], i);
    }
  }

  method IsValidMessageMentions(mentions: seq<Mention>, body: seq<Unit>) returns (valid: bool)
    ensures valid == LocalAccepts(body, mentions)
  {
    if |mentions| > 16 { return false; }
    var previousEnd := 0;
    for i := 0 to |mentions|
      invariant 0 <= previousEnd == LastEnd(mentions[..i])
      invariant LocalAcceptsAll(body, mentions[..i])
    {
      var m := mentions[i];
      assert mentions[..i + 1][..i] == mentions[..i];
      if m.user == 0 || m.start < previousEnd || m.end <= m.start + 1 || m.end > |body|
         || body[m.start] != AT_SIGN || Splits(body, m.start) || Splits(body, m.end)
      {
        LocalRejectsLonger(body, mentions, i + 1);
        return false;
      }
      previousEnd := m.end;
    }
    assert mentions[..|mentions|] == mentions;
    return true;
  }

  // ----- Both accept the same -----

  /** An offset of a well-formed text is a boundary exactly when it splits no pair. */
  lemma {:induction false} BoundaryIffNoSplit(text: seq<Scalar>, offset: int)
    requires 0 <= offset <= |Utf16(text)|
    ensures offset in Boundaries(text) <==> !Splits(Utf16(text), offset)
    decreases |text|
  {
    if text != [] {
      var rest := text[..|text| - 1];
      var before, last := Utf16(rest), Encode(text[|text| - 1]);
      assert Utf16(text) == before + last;
      BoundariesInRange(rest);
      if offset <= |before| {
        BoundaryIffNoSplit(rest, offset);
      }
    }
  }

  lemma {:induction false} BoundariesInRange(text: seq<Scalar>)
    ensures forall o <- Boundaries(text) :: 0 <= o <= |Utf16(text)|
    ensures forall o <- AtSigns(text) :: 0 <= o < |Utf16(text)|
    decreases |text|
  {
    if text != [] {
      BoundariesInRange(text[..|text| - 1]);
    }
  }

  lemma {:induction false} AtSignIffUnit(text: seq<Scalar>, offset: int)
    requires 0 <= offset < |Utf16(text)|
    ensures offset in AtSigns(text) <==> Utf16(text)[offset] == AT_SIGN
    decreases |text|
  {
    var rest := text[..|text| - 1];
    var before, last := Utf16(rest), Encode(text[|text| - 1]);
    BoundariesInRange(rest);
    if offset < |before| {
      AtSignIffUnit(rest, offset);
    } else {
      assert Utf16(text)[offset] == last[offset - |before|];
    }
  }

  lemma {:induction false} AcceptSameRange(text: seq<Scalar>, from: int, m: Mention)
    ensures ScanAcceptsRange(text, from, m) <==> LocalAcceptsRange(Utf16(text), from, m)
  {
    if 0 <= m.start && m.start + 1 < m.end <= |Utf16(text)| {
      BoundaryIffNoSplit(text, m.start);
      BoundaryIffNoSplit(text, m.end);
      AtSignIffUnit(text, m.start);
    }
    hide Utf16, Boundaries, AtSigns, Splits;
  }

  /** The server and the browser accept the same mention lists of every well-formed text. */
  lemma {:induction false} ServerAndBrowserAgree(text: seq<Scalar>, mentions: seq<Mention>)
    ensures ScanAccepts(text, mentions) <==> LocalAccepts(Utf16(text), mentions)
  {
    AcceptSameList(text, mentions);
  }

  lemma {:induction false} AcceptSameList(text: seq<Scalar>, mentions: seq<Mention>)
    ensures ScanAcceptsAll(text, mentions) <==> LocalAcceptsAll(Utf16(text), mentions)
    decreases |mentions|
  {
    hide ScanAcceptsRange, LocalAcceptsRange, Utf16;
    if mentions != [] {
      var rest := mentions[..|mentions| - 1];
      AcceptSameList(text, rest);
      AcceptSameRange(text, LastEnd(rest), mentions[|mentions| - 1]);
    }
  }

  // ----- Segments -----

  function Flatten(segments: seq<Segment>): seq<Unit> {
    if segments == [] then [] else Flatten(segments[..|segments| - 1]) + segments[|segments| - 1].text
  }

  function MentionedTexts(segments: seq<Segment>): seq<seq<Unit>> {
    if segments == [] then []
    else MentionedTexts(segments[..|segments| - 1])
         + if segments[|segments| - 1].mentioned then [segments[|segments| - 1].text] else []
  }

  function Texts(body: seq<Unit>, mentions: seq<Mention>): seq<seq<Unit>>
    requires forall m <- mentions :: 0 <= m.start <= m.end <= |body|
  {
    seq(|mentions|, i requires 0 <= i < |mentions| => body[mentions[i].start..mentions[i].end])
  }

  lemma Pushed(segments: seq<Segment>, s: Segment)
    ensures Flatten(segments + [s]) == Flatten(segments) + s.text
    ensures MentionedTexts(segments + [s]) == MentionedTexts(segments) + if s.mentioned then [s.text] else []
  {
    assert (segments + [s])[..|segments|] == segments;
  }

  /** The segments spell the body; the mentioned ones are the ranges of a valid list, and
      nothing is marked when the list is not valid. */
  method MessageTextSegments(body: seq<Unit>, mentions: seq<Mention>) returns (segments: seq<Segment>)
    ensures Flatten(segments) == body && segments != []
    ensures LocalAccepts(body, mentions) ==> (forall m <- mentions :: 0 <= m.start <= m.end <= |body|)
                                             && MentionedTexts(segments) == Texts(body, mentions)
    ensures !LocalAccepts(body, mentions) ==> segments == [Segment(body, false)]
  {
    var valid := IsValidMessageMentions(mentions, body);
    if !valid {
      segments := [Segment(body, false)];
      Pushed([], Segment(body, false));
      assert [] + [Segment(body, false)] == [Segment(body, false)];
      return;
    }
    ValidRanges(body, mentions);
    segments := Split(body, mentions);
  }

  /** Cut a body at the ranges of a valid list. */
  method Split(body: seq<Unit>, mentions: seq<Mention>) returns (segments: seq<Segment>)
    requires LocalAcceptsAll(body, mentions)
    requires forall m <- mentions :: 0 <= m.start && m.start + 1 < m.end <= |body|
    ensures Flatten(segments) == body && segments != [] && MentionedTexts(segments) == Texts(body, mentions)
  {
    hide Flatten, MentionedTexts, LocalAcceptsAll;
    NoSegments();
    segments := [];
    var cursor := 0;
    for i := 0 to |mentions|
      invariant 0 <= cursor <= |body| && cursor == LastEnd(mentions[..i])
      invariant Flatten(segments) == body[..cursor]
      invariant MentionedTexts(segments) == Texts(body, mentions[..i])
      invariant cursor > 0 ==> segments != []
    {
      var m := mentions[i];
      StartsAfter(body, mentions, i);
      assert mentions[..i + 1] == mentions[..i] + [m];
      if m.start > cursor {
        Pushed(segments, Segment(body[cursor..m.start], false));
        segments := segments + [Segment(body[cursor..m.start], false)];
      }
      Pushed(segments, Segment(body[m.start..m.end], true));
      segments := segments + [Segment(body[m.start..m.end], true)];
      assert body[..m.start] + body[m.start..m.end] == body[..m.end];
      cursor := m.end;
    }
    assert mentions[..|mentions|] == mentions;
    if cursor < |body| || |segments| == 0 {
      Pushed(segments, Segment(body[cursor..], false));
      segments := segments + [Segment(body[cursor..], false)];
      assert body[..cursor] + body[cursor..] == body;
    }
  }

  lemma NoSegments()
    ensures Flatten([]) == [] && MentionedTexts([]) == []
  {
  }

  lemma StartsAfter(body: seq<Unit>, mentions: seq<Mention>, i: nat)
    requires LocalAcceptsAll(body, mentions) && i < |mentions|
    ensures LastEnd(mentions[..i]) <= mentions[i].start
  {
    LocalRejectsLonger(body, mentions, i + 1);
    assert mentions[..i + 1][..i] == mentions[..i];
  }

  lemma {:induction false} ValidRanges(body: seq<Unit>, mentions: seq<Mention>)
    requires LocalAcceptsAll(body, mentions)
    ensures forall m <- mentions :: 0 <= m.start && m.start + 1 < m.end <= |body|
    decreases |mentions|
  {
    if mentions != [] {
      ValidRanges(body, mentions[..|mentions| - 1]);
      assert mentions == mentions[..|mentions| - 1] + [mentions[|mentions| - 1]];
    }
  }

  // ----- What a valid list is -----

  /** Up to sixteen ranges of real users, one behind the other, each at least two units long
      and beginning with an at sign, none of them cutting a surrogate pair. */
  predicate Valid(body: seq<Unit>, mentions: seq<Mention>) {
    && |mentions| <= 16
    && (forall m <- mentions ::
          && m.user != 0 && 0 <= m.start && m.start + 2 <= m.end <= |body| && body[m.start] == 0x40
          && !CutsPair(body, m.start) && !CutsPair(body, m.end))
    && (forall i, j :: 0 <= i < j < |mentions| ==> mentions[i].end <= mentions[j].start)
  }

  predicate CutsPair(body: seq<Unit>, offset: int) {
    1 <= offset < |body| && 0xD800 <= body[offset - 1] < 0xDC00 && 0xDC00 <= body[offset] < 0xE000
  }

  lemma {:induction false} AcceptedRanges(body: seq<Unit>, mentions: seq<Mention>)
    ensures LocalAcceptsAll(body, mentions) <==>
              && (forall i :: 0 <= i < |mentions| ==> LocalAcceptsRange(body, 0, mentions[i]))
              && (forall i, j :: 0 <= i < j < |mentions| ==> mentions[i].end <= mentions[j].start)
    decreases |mentions|
  {
    if mentions != [] {
      var rest, last := mentions[..|mentions| - 1], mentions[|mentions| - 1];
      AcceptedRanges(body, rest);
      assert forall i :: 0 <= i < |rest| ==> rest[i] == mentions[i];
      if rest != [] && LocalAcceptsAll(body, rest) && LocalAcceptsRange(body, LastEnd(rest), last) {
        forall i | 0 <= i < |rest| ensures mentions[i].end <= last.start {
          assert LocalAcceptsRange(body, 0, rest[|rest| - 1]);
        }
      }
    }
  }

  /** The browser accepts exactly the valid lists of any text, and so does the server of every
      well-formed one. */
  lemma {:induction false} ExactlyTheValidAreAccepted(text: seq<Scalar>, body: seq<Unit>, mentions: seq<Mention>)
    ensures LocalAccepts(body, mentions) <==> Valid(body, mentions)
    ensures ScanAccepts(text, mentions) <==> Valid(Utf16(text), mentions)
  {
    AcceptedRanges(body, mentions);
    AcceptedRanges(Utf16(text), mentions);
    ServerAndBrowserAgree(text, mentions);
    hide Utf16, ScanAccepts, LocalAcceptsAll;
  }
}
