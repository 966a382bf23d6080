/** Human-shareable room codes XXX-XXX-XXX (src/calls/calls.service.ts). */
module RoomCodes {

  const ALPHABET := "ABCDEFGHJKLMNPQRSTUVWXYZ23456789"
  const SEGMENT_LENGTH := 3
  const SEGMENTS := 3
  const MAX_ATTEMPTS := 16

  /** The random indices behind one code: one per character, segment by segment. */
  type Draw = d: seq<nat> | |d| == 9 && forall i :: 0 <= i < 9 ==> d[i] < 32
    witness [0, 0, 0, 0, 0, 0, 0, 0, 0]

  function Segment(d: Draw, k: nat): string
    requires k < SEGMENTS
  {
    [ALPHABET[d[3 * k]], ALPHABET[d[3 * k + 1]], ALPHABET[d[3 * k + 2]]]
  }

  function RoomCode(d: Draw): (code: string)
    ensures |code| == 11
  {
    Segment(d, 0) + "-" + Segment(d, 1) + "-" + Segment(d, 2)
  }

  method GeneratePart(d: Draw, k: nat) returns (out: string)
    requires k < SEGMENTS
    ensures out == Segment(d, k)
  {
    out := "";
    for i := 0 to SEGMENT_LENGTH
      invariant |out| == i && forall j :: 0 <= j < i ==> out[j] == ALPHABET[d[3 * k + j]]
    {
      out := out + [ALPHABET[d[3 * k + i]]];
    }
  }

  method GenerateRoomCode(d: Draw) returns (code: string)
    ensures code == RoomCode(d)
  {
    code := GeneratePart(d, 0);
    for k := 1 to SEGMENTS
      invariant k == 1 ==> code == Segment(d, 0)
      invariant k == 2 ==> code == Segment(d, 0) + "-" + Segment(d, 1)
      invariant k == 3 ==> code == RoomCode(d)
    {
      var part := GeneratePart(d, k);
      code := code + "-" + part;
    }
  }

  /** The position of a character in the alphabet. */
  function Position(c: char): int {
    if 'A' <= c <= 'H' then c as int - 'A' as int
    else if 'J' <= c <= 'N' then c as int - 'J' as int + 8
    else if 'P' <= c <= 'Z' then c as int - 'P' as int + 13
    else c as int - '2' as int + 24
  }

  lemma PositionInverts(i: nat)
    requires i < 32
    ensures Position(ALPHABET[i]) == i
  {
    if i < 8 { assert ALPHABET[i] in "ABCDEFGH"; }
    else if i < 13 { assert ALPHABET[i] in "JKLMN"; }
    else if i < 24 { assert ALPHABET[i] in "PQRSTUVWXYZ"; }
    else { assert ALPHABET[i] in "23456789"; }
  }

  lemma CharacterOfCode(d: Draw, i: nat)
    requires i < 9
    ensures RoomCode(d)[i + i / 3] == ALPHABET[d[i]]
  {
    if i < 3 {
      assert Segment(d, 0)[i] == ALPHABET[d[i]];
    } else if i < 6 {
      assert Segment(d, 1)[i - 3] == ALPHABET[d[i]];
    } else {
      assert Segment(d, 2)[i - 6] == ALPHABET[d[i]];
    }
  }

  /** Of the letters and digits, those that are not easily mistaken for another. */
  predicate IsReadable(c: char) { ('A' <= c <= 'Z' && c != 'I' && c != 'O') || '2' <= c <= '9' }

  /** A code consists of three groups of three such characters, with dashes between them. */
  lemma CodesAreReadable(d: Draw)
    ensures RoomCode(d)[3] == RoomCode(d)[7] == '-'
    ensures forall i :: 0 <= i < 9 ==> IsReadable(RoomCode(d)[i + i / 3])
  {
    forall i | 0 <= i < 9 ensures IsReadable(RoomCode(d)[i + i / 3]) {
      CharacterOfCode(d, i);
    }
  }

  /** Different draws give different codes: all 32^9 codes can be handed out. */
  lemma RoomCodesAreDistinct(d: Draw, e: Draw)
    requires RoomCode(d) == RoomCode(e)
    ensures d == e
  {
    forall i | 0 <= i < 9 ensures d[i] == e[i] {
      CharacterOfCode(d, i);
      CharacterOfCode(e, i);
      PositionInverts(d[i]);
      PositionInverts(e[i]);
    }
  }
}
