/** The keyboard matrix: eight rows of five key bits, set and cleared by `keyboard_press` and
    read through `port_read8` by `keyboard_read8`. A set bit is a key reported down by the
    windowing layer, a cleared bit one reported up. */
module Keyboard {
  import opened Bits

  datatype Option<T> = None | Some(value: T)

  /** Where a key sits: its row of `keyboard[]` and its bit there (MAX0 to MAX4). */
  datatype Position = Position(row: nat, bit: nat)

  /** Every row holds 0x1F before any key event. */
  const ROW_REST: byte := 0x1F

  const REST_ROWS: seq<byte> := [ROW_REST, ROW_REST, ROW_REST, ROW_REST, ROW_REST, ROW_REST, ROW_REST, ROW_REST]

  /** MAX0 to MAX4, the masks of the five key bits. */
  const MAX: seq<byte> := [0x01, 0x02, 0x04, 0x08, 0x10]

  /** The row and bit `keyboard_press` touches for a key code; letters in either case.
      Keys with no case (Caps Shift and Symbol Shift among them) have none. */
  function KeyPosition(key: byte): (p: Option<Position>)
    ensures p.Some? ==> p.value.row < 8 && p.value.bit < 5
  {
    if key == 'z' as int || key == 'Z' as int then Some(Position(0, 1))
    else if key == 'x' as int || key == 'X' as int then Some(Position(0, 2))
    else if key == 'c' as int || key == 'C' as int then Some(Position(0, 3))
    else if key == 'v' as int || key == 'V' as int then Some(Position(0, 4))
    else if key == 'a' as int || key == 'A' as int then Some(Position(1, 0))
    else if key == 's' as int || key == 'S' as int then Some(Position(1, 1))
    else if key == 'd' as int || key == 'D' as int then Some(Position(1, 2))
    else if key == 'f' as int || key == 'F' as int then Some(Position(1, 3))
    else if key == 'g' as int || key == 'G' as int then Some(Position(1, 4))
    else if key == 'q' as int || key == 'Q' as int then Some(Position(2, 0))
    else if key == 'w' as int || key == 'W' as int then Some(Position(2, 1))
    else if key == 'e' as int || key == 'E' as int then Some(Position(2, 2))
    else if key == 'r' as int || key == 'R' as int then Some(Position(2, 3))
    else if key == 't' as int || key == 'T' as int then Some(Position(2, 4))
    else if key == '1' as int then Some(Position(3, 0))
    else if key == '2' as int then Some(Position(3, 1))
    else if key == '3' as int then Some(Position(3, 2))
    else if key == '4' as int then Some(Position(3, 3))
    else if key == '5' as int then Some(Position(3, 4))
    else if key == '0' as int then Some(Position(4, 0))
    else if key == '9' as int then Some(Position(4, 1))
    else if key == '8' as int then Some(Position(4, 2))
    else if key == '7' as int then Some(Position(4, 3))
    else if key == '6' as int then Some(Position(4, 4))
    else if key == 'p' as int || key == 'P' as int then Some(Position(5, 0))
    else if key == 'o' as int || key == 'O' as int then Some(Position(5, 1))
    else if key == 'i' as int || key == 'I' as int then Some(Position(5, 2))
    else if key == 'u' as int || key == 'U' as int then Some(Position(5, 3))
    else if key == 'y' as int || key == 'Y' as int then Some(Position(5, 4))
    else if key == 13 then Some(Position(6, 0))
    else if key == 'l' as int || key == 'L' as int then Some(Position(6, 1))
    else if key == 'k' as int || key == 'K' as int then Some(Position(6, 2))
    else if key == 'j' as int || key == 'J' as int then Some(Position(6, 3))
    else if key == 'h' as int || key == 'H' as int then Some(Position(6, 4))
    else if key == ' ' as int then Some(Position(7, 0))
    else if key == 'm' as int || key == 'M' as int then Some(Position(7, 2))
    else if key == 'n' as int || key == 'N' as int then Some(Position(7, 3))
    else if key == 'b' as int || key == 'B' as int then Some(Position(7, 4))
    else None
  }

  /** `keyboard_press` on the rows as values: the key's bit becomes `value`. */
  function Pressed(rows: seq<byte>, key: byte, value: bool): (t: seq<byte>)
    requires |rows| == 8
    ensures |t| == 8
  {
    match KeyPosition(key)
    case None => rows
    case Some(p) => rows[p.row := SetOrUnset(rows[p.row], MAX[p.bit], value)]
  }

  /** `keyboard_read8` after its first n rows: 0x1F ANDed with each of those rows whose bit
      in the high byte of the port is clear. */
  function Selected(rows: seq<byte>, high: byte, n: nat): byte
    requires n <= |rows|
    decreases n
  {
    if n == 0 then ROW_REST
    else
      var acc := Selected(rows, high, n - 1);
      if Bit(high, n - 1) then acc else And8(acc, rows[n - 1])
  }

  lemma SelectedStep(rows: seq<byte>, high: byte, n: nat)
    requires n < |rows|
    ensures Selected(rows, high, n + 1) ==
      if Bit(high, n) then Selected(rows, high, n) else And8(Selected(rows, high, n), rows[n])
  {
  }

  /** The byte `keyboard_read8` returns for a port whose high byte is `high`. */
  function KeyboardRead(rows: seq<byte>, high: byte): byte
    requires |rows| == 8
  {
    Selected(rows, high, |rows|)
  }

  /** `port_read8`: `reg.byte_value` is the whole 16-bit port, so only port 0x00FE reaches
      the keyboard (with high byte 0, every row selected); any other port reads 0xFF. */
  function PortRead(rows: seq<byte>, port: word): byte
    requires |rows| == 8
  {
    if port == 0xFE then KeyboardRead(rows, High(port)) else 0xFF
  }

  // ---------------------------------------------------------------- bit facts

  lemma Pow2Byte(k: nat)
    requires k < 8
    ensures Pow2(k) < 0x100
  {
    if k == 0 {
    } else if k < 4 {
      assert Pow2(k) <= Pow2(3) == 8 by {
        if k == 1 { } else if k == 2 { } else { }
      }
    } else {
      assert Pow2(k) <= Pow2(7) == 0x80 by {
        if k == 4 { } else if k == 5 { } else if k == 6 { } else { }
      }
    }
  }

  lemma MaxIsPow2(b: nat)
    requires b < 5
    ensures MAX[b] == Pow2(b)
  {
    if b == 0 { } else if b == 1 { } else if b == 2 { } else if b == 3 { } else { }
  }

  /** `x & (1 << k)` is nonzero exactly when bit k of x is set. */
  lemma MaskTestsBit(x: byte, k: nat)
    requires k < 8
    ensures Pow2(k) < 0x100
    ensures (And8(x, Pow2(k)) != 0) == Bit(x, k)
  {
    Pow2Byte(k);
    var m := And8(x, Pow2(k));
    And8Bit(x, Pow2(k), k);
    PowerBits(k, k);
    if Bit(x, k) {
      ZeroHasNoBits(k);
    } else {
      forall j | 0 <= j < 8 ensures Bit(m, j) == Bit(0, j) {
        And8Bit(x, Pow2(k), j);
        PowerBits(k, j);
        ZeroHasNoBits(j);
      }
      BytesEqualByBits(m, 0);
    }
  }

  /** 0x1F has bits 0 to 4. */
  lemma RestBits(k: nat)
    requires k < 8
    ensures Bit(ROW_REST, k) == (k < 5)
  {
    if k == 0 { } else if k == 1 { } else if k == 2 { } else if k == 3 { }
    else if k == 4 { } else if k == 5 { } else if k == 6 { } else { }
  }

  /** All eight bits of 0xFF are set. */
  lemma FullBits(k: nat)
    requires k < 8
    ensures Bit(0xFF, k)
  {
    if k == 0 { } else if k == 1 { } else if k == 2 { } else if k == 3 { }
    else if k == 4 { } else if k == 5 { } else if k == 6 { } else { }
  }

  // ---------------------------------------------------------------- reading

  /** Every row among the first n that the high byte selects has bit k set. */
  ghost predicate SelectedHave(rows: seq<byte>, high: byte, n: nat, k: nat)
    requires n <= |rows|
  {
    forall i | 0 <= i < n && !Bit(high, i) :: Bit(rows[i], k)
  }

  lemma SelectedHaveStep(rows: seq<byte>, high: byte, n: nat, k: nat)
    requires 0 < n <= |rows|
    ensures SelectedHave(rows, high, n, k) ==
      (SelectedHave(rows, high, n - 1, k) && (!Bit(high, n - 1) ==> Bit(rows[n - 1], k)))
  {
    if SelectedHave(rows, high, n - 1, k) && (!Bit(high, n - 1) ==> Bit(rows[n - 1], k)) {
      forall i | 0 <= i < n && !Bit(high, i) ensures Bit(rows[i], k) {
        if i < n - 1 {
          assert 0 <= i < n - 1 && !Bit(high, i);
        }
      }
    }
  }

  /** Bit k of the partial read over the first n rows is the conjunction of the key-bit range
      and bit k of every selected row among them. */
  ghost predicate SelectedBitsHold(rows: seq<byte>, high: byte, n: nat, k: nat)
    requires n <= |rows|
  {
    Bit(Selected(rows, high, n), k) == (k < 5 && SelectedHave(rows, high, n, k))
  }

  /** Bit k after one more row is folded into the read: kept when the row is not selected,
      and-ed with the row's bit k when it is. */
  lemma FoldBit(acc: byte, row: byte, skip: bool, k: nat)
    requires k < 8
    ensures Bit(if skip then acc else And8(acc, row), k) == (Bit(acc, k) && (!skip ==> Bit(row, k)))
  {
    if !skip {
      And8Bit(acc, row, k);
    }
  }

  lemma SelectedBitsStep(rows: seq<byte>, high: byte, n: nat, k: nat)
    requires 0 < n <= |rows| && k < 8
    requires SelectedBitsHold(rows, high, n - 1, k)
    ensures SelectedBitsHold(rows, high, n, k)
  {
    SelectedStep(rows, high, n - 1);
    FoldBit(Selected(rows, high, n - 1), rows[n - 1], Bit(high, n - 1), k);
    SelectedHaveStep(rows, high, n, k);
  }

  /** Bit k of the partial read is set exactly when k is one of the five key bits and every
      selected row among the first n has it set. */
  lemma {:induction false} SelectedBits(rows: seq<byte>, high: byte, n: nat, k: nat)
    requires n <= |rows| && k < 8
    ensures SelectedBitsHold(rows, high, n, k)
    decreases n
  {
    if n == 0 {
      RestBits(k);
    } else {
      SelectedBits(rows, high, n - 1, k);
      SelectedBitsStep(rows, high, n, k);
    }
  }

  /** A bit of the byte `keyboard_read8` returns is set exactly when it is one of the five key
      bits and it is set in every row the high byte selects (a clear bit selects the row). */
  lemma ReadBits(rows: seq<byte>, high: byte, k: nat)
    requires |rows| == 8 && k < 8
    ensures Bit(KeyboardRead(rows, high), k) ==
      (k < 5 && forall i | 0 <= i < 8 && !Bit(high, i) :: Bit(rows[i], k))
  {
    SelectedBits(rows, high, |rows|, k);
  }

  /** With no row selected the read is 0x1F. */
  lemma ReadNoRow(rows: seq<byte>)
    requires |rows| == 8
    ensures KeyboardRead(rows, 0xFF) == ROW_REST
  {
    forall k | 0 <= k < 8 ensures Bit(KeyboardRead(rows, 0xFF), k) == Bit(ROW_REST, k) {
      ReadBits(rows, 0xFF, k);
      RestBits(k);
      forall i | 0 <= i < 8 ensures Bit(0xFF, i) { FullBits(i); }
    }
    BytesEqualByBits(KeyboardRead(rows, 0xFF), ROW_REST);
  }

  /** Rows that hold 0x1F read as 0x1F, whichever rows are selected. */
  lemma ReadAtRest(high: byte)
    ensures KeyboardRead(REST_ROWS, high) == ROW_REST
  {
    forall k | 0 <= k < 8 ensures Bit(KeyboardRead(REST_ROWS, high), k) == Bit(ROW_REST, k) {
      ReadBits(REST_ROWS, high, k);
      RestBits(k);
    }
    BytesEqualByBits(KeyboardRead(REST_ROWS, high), ROW_REST);
  }

  /** `port_read8` returns 0xFF exactly for the ports other than 0x00FE: the keyboard's byte
      never has bit 7 set. So the ports a Spectrum scans one half-row at a time (0xFEFE to
      0x7FFE) all read 0xFF. */
  lemma PortReadFF(rows: seq<byte>, port: word)
    requires |rows| == 8
    ensures (PortRead(rows, port) == 0xFF) == (port != 0xFE)
  {
    if port == 0xFE {
      ReadBits(rows, High(port), 7);
      FullBits(7);
    }
  }

  /** Port 0x00FE ANDs every row: a bit reads set only when it is set in all eight rows. */
  lemma PortReadKeyboard(rows: seq<byte>, k: nat)
    requires |rows| == 8 && k < 8
    ensures Bit(PortRead(rows, 0xFE), k) == (k < 5 && forall i | 0 <= i < 8 :: Bit(rows[i], k))
  {
    assert High(0xFE) == 0;
    ReadBits(rows, 0, k);
    forall i | 0 <= i < 8 ensures !Bit(0, i) { ZeroHasNoBits(i); }
  }

  // ---------------------------------------------------------------- key events

  /** A key event changes only its own bit: in the key's row that bit becomes `value`; every
      other bit of every row is kept. */
  lemma PressedBits(rows: seq<byte>, key: byte, value: bool, r: nat, k: nat)
    requires |rows| == 8 && r < 8 && k < 8
    ensures Bit(Pressed(rows, key, value)[r], k) ==
      if KeyPosition(key) == Some(Position(r, k)) then value else Bit(rows[r], k)
  {
    match KeyPosition(key)
    case None =>
    case Some(p) =>
      if p.row == r {
        MaxIsPow2(p.bit);
        SetOrUnsetBit(rows[r], MAX[p.bit], value, k);
        PowerBits(p.bit, k);
      }
  }

  /** Of two events on the same key the later one wins. */
  lemma LastEventWins(rows: seq<byte>, key: byte, v: bool, w: bool)
    requires |rows| == 8
    ensures Pressed(Pressed(rows, key, v), key, w) == Pressed(rows, key, w)
  {
    var t := Pressed(Pressed(rows, key, v), key, w);
    var u := Pressed(rows, key, w);
    forall r | 0 <= r < 8 ensures t[r] == u[r] {
      forall k | 0 <= k < 8 ensures Bit(t[r], k) == Bit(u[r], k) {
        PressedBits(Pressed(rows, key, v), key, w, r, k);
        PressedBits(rows, key, v, r, k);
        PressedBits(rows, key, w, r, k);
      }
      BytesEqualByBits(t[r], u[r]);
    }
  }

  /** A key reported down before any event leaves the rows at rest: its bit is already set. */
  lemma DownAtRest(key: byte)
    ensures Pressed(REST_ROWS, key, true) == REST_ROWS
  {
    var t := Pressed(REST_ROWS, key, true);
    forall r | 0 <= r < 8 ensures t[r] == REST_ROWS[r] {
      forall k | 0 <= k < 8 ensures Bit(t[r], k) == Bit(REST_ROWS[r], k) {
        PressedBits(REST_ROWS, key, true, r, k);
        RestBits(k);
      }
      BytesEqualByBits(t[r], REST_ROWS[r]);
    }
  }

  /** After a key is reported up, any read that selects its row has the key's bit clear. */
  lemma UpReadsClear(rows: seq<byte>, key: byte, high: byte)
    requires |rows| == 8 && KeyPosition(key).Some?
    requires !Bit(high, KeyPosition(key).value.row)
    ensures !Bit(KeyboardRead(Pressed(rows, key, false), high), KeyPosition(key).value.bit)
  {
    var p := KeyPosition(key).value;
    ReadBits(Pressed(rows, key, false), high, p.bit);
    PressedBits(rows, key, false, p.row, p.bit);
  }

  /** Upper- and lower-case letters name the same key. */
  lemma LettersIgnoreCase(c: char)
    requires 'a' <= c <= 'z'
    ensures KeyPosition(c as int - 32) == KeyPosition(c as int)
  {
  }

  /** No key reaches bit 0 of row 0 or bit 1 of row 7, the two shift keys. */
  lemma ShiftKeysUnreached(key: byte)
    ensures KeyPosition(key) != Some(Position(0, 0))
    ensures KeyPosition(key) != Some(Position(7, 1))
  {
  }

  // ---------------------------------------------------------------- the matrix

  /** `keyboard[]`: eight rows updated in place. */
  class Matrix {
    const rows: array<byte>

    ghost predicate Valid()
      reads this
    {
      rows.Length == 8
    }

    /** Every row starts at 0x1F. */
    constructor()
      ensures Valid() && fresh(rows)
      ensures rows[..] == REST_ROWS
    {
      rows := new byte[8](_ => ROW_REST);
    }

    /** `keyboard_press`. */
    method Press(key: byte, value: bool)
      requires Valid()
      modifies rows
      ensures rows[..] == Pressed(old(rows[..]), key, value)
    {
      var p := KeyPosition(key);
      if p.Some? {
        rows[p.value.row] := SetOrUnset(rows[p.value.row], MAX[p.value.bit], value);
      }
    }

    /** `keyboard_read8`: the loop walks the mask b over bits 0 to 7 of the high byte. */
    method Read8(port: word) returns (alt: byte)
      requires Valid()
      ensures alt == KeyboardRead(rows[..], High(port))
    {
      var high := High(port);
      ghost var rs := rows[..];
      alt := ROW_REST;
      var b: nat := 1;
      var i := 0;
      while i < 8
        invariant 0 <= i <= 8 && b == Pow2(i)
        invariant alt == Selected(rs, high, i)
      {
        MaskTestsBit(high, i);
        SelectedStep(rs, high, i);
        if And8(high, b) == 0 {
          alt := And8(alt, rows[i]);
        }
        b := b * 2;
        i := i + 1;
      }
    }

    /** `port_read8`. */
    method PortRead8(port: word) returns (v: byte)
      requires Valid()
      ensures v == PortRead(rows[..], port)
    {
      if port == 0xFE {
        v := Read8(port);
      } else {
        v := 0xFF;
      }
    }
  }
}
