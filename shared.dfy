/**
 * What client and server share on the wire (src/shared.hpp): the message
 * type numbers, and the fixed-size text packet that carries chat lines and
 * names.
 */
module Shared {
  import opened Wrappers
  import opened CStrings
  import opened Chats

  /** The seven message kinds, in the order their numbers are assigned. */
  datatype MessageKind =
    | PlayerInputMsg | GameStateMsg | GameTickMsg | PlayerIdMsg
    | ChatMessageMsg | GameMetadataMsg | NameChangeMsg

  /** The offset of a kind from `MSG_USER_BASE`. */
  function Offset(k: MessageKind): (r: nat)
    ensures r <= 6
  {
    match k
    case PlayerInputMsg => 0
    case GameStateMsg => 1
    case GameTickMsg => 2
    case PlayerIdMsg => 3
    case ChatMessageMsg => 4
    case GameMetadataMsg => 5
    case NameChangeMsg => 6
  }

  /** `MSG_PLAYER_INPUT` .. `MSG_NAME_CHANGE`: `MSG_USER_BASE` plus the kind's offset (the base's value is not part of this model). */
  function MessageType(base: nat, k: MessageKind): nat
  {
    base + Offset(k)
  }

  /** Telling the kind of a received message from its number. */
  function KindOf(base: nat, t: nat): (r: Option<MessageKind>)
    ensures r.Some? <==> base <= t <= base + 6
  {
    if t < base then None
    else match t - base
      case 0 => Some(PlayerInputMsg)
      case 1 => Some(GameStateMsg)
      case 2 => Some(GameTickMsg)
      case 3 => Some(PlayerIdMsg)
      case 4 => Some(ChatMessageMsg)
      case 5 => Some(GameMetadataMsg)
      case 6 => Some(NameChangeMsg)
      case _ => None
  }

  /**
   * The seven numbers lie in `[base, base + 6]`, each names its own kind
   * back, and so no two kinds share a number.
   */
  lemma MessageTypesDistinct(base: nat, k1: MessageKind, k2: MessageKind)
    ensures base <= MessageType(base, k1) <= base + 6
    ensures KindOf(base, MessageType(base, k1)) == Some(k1)
    ensures MessageType(base, k1) == MessageType(base, k2) ==> k1 == k2
  {
  }

  /**
   * The buffer `TextPacketData(str)` holds: the C string in `str`, cut to
   * 2047 characters, then NUL in every remaining byte (from the zeroed
   * array, the padding of `strncpy`, and the final terminator).
   */
  function Packed(str: seq<char>): (r: seq<char>)
    ensures |r| == MaxStringLen && r[MaxStringLen - 1] == Nul
  {
    var s := CString(str);
    seq(MaxStringLen, i requires 0 <= i < MaxStringLen =>
          if i < MaxStringLen - 1 && i < |s| then s[i] else Nul)
  }

  /**
   * The packet's text, read as a C string, is the given string truncated as
   * `snprintf` to 2048 would; a string that fits arrives whole; and the
   * terminator is always there.
   */
  lemma {:induction false} PackedText(str: seq<char>)
    ensures CString(Packed(str)) == Truncated(CString(str), MaxStringLen)
    ensures |CString(str)| < MaxStringLen ==> CString(Packed(str)) == CString(str)
    ensures forall i :: |CString(Packed(str))| <= i < MaxStringLen ==> Packed(str)[i] == Nul
  {
    var p := Packed(str);
    var s := CString(str);
    var t := Truncated(s, MaxStringLen);
    var n := |t|;
    assert p[..n] == t by {
      forall i | 0 <= i < n ensures p[i] == t[i] {
        assert t[i] == s[i];
      }
    }
    assert p[n] == Nul;
    CStringOf(p, n);
  }

  /** `TextPacketData`: a fixed array of 2048 characters. */
  class TextPacket {
    const text: array<char>

    /** `TextPacketData(str)`: zeroed, `strncpy` of the whole array, then the last byte set to NUL. */
    constructor(str: seq<char>)
      ensures fresh(text) && text.Length == MaxStringLen
      ensures text[..] == Packed(str)
    {
      var a := new char[MaxStringLen](_ => Nul);
      var i := 0;
      while i < MaxStringLen && i < |str| && str[i] != Nul
        invariant 0 <= i <= MaxStringLen && i <= |CString(str)|
        invariant forall j :: 0 <= j < i ==> a[j] == str[j]
        invariant forall j :: i <= j < MaxStringLen ==> a[j] == Nul
      {
        CStringAt(str, i);
        a[i] := str[i];
        i := i + 1;
      }
      if i < MaxStringLen {
        CStringAt(str, i);
      }
      a[MaxStringLen - 1] := Nul;
      text := a;
      forall j | 0 <= j < i ensures str[j] == CString(str)[j] {
        CStringAt(str, j);
      }
    }
  }
}
