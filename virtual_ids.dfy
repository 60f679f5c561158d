/**
 * Virtual ids: ids minted on the client for records not yet backed by a
 * document annotation (src/display/editor/annotation_editor_manager.js).
 * `Math.random` is not modelled: each of the eight random draws is a parameter,
 * the integer `((1 + Math.random()) * 0x10000) | 0`, which lies in
 * [0x10000, 0x1FFFF].
 */
module VirtualIds {
  import opened JsText

  const VirtualIdPrefix := "virtualId-"

  predicate IsDraw(r: int) {
    0x10000 <= r <= 0x1FFFF
  }

  /**
   * `getRandomForUUID`: the draw in lower-case hex with its leading `1`
   * dropped, which leaves four digits worth the draw less 0x10000.
   */
  function HexGroup(r: int): (g: string)
    requires IsDraw(r)
    ensures |g| == 4
    ensures forall i :: 0 <= i < 4 ==> IsRadixDigit(g[i], 16) && !('A' <= g[i] <= 'F')
    ensures DigitsValue(g, 16) == r - 0x10000
  {
    HexOfDraw(r);
    ToRadixValue(r, 16);
    DropLeadingDigit(ToRadix(r, 16), 16);
    ToRadixLowerCase(r, 16);
    ToRadix(r, 16)[1..]
  }

  /** A draw written in hex is five digits, the first of them `1`. */
  lemma HexOfDraw(r: int)
    requires IsDraw(r)
    ensures |ToRadix(r, 16)| == 5 && ToRadix(r, 16)[0] == '1'
  {
    var r1, r2, r3 := r / 16, r / 256, r / 4096;
    assert r1 / 16 == r2 && r2 / 16 == r3 && r3 / 16 == 1;
    assert ToRadix(r3, 16) == [DigitChar(1)] + [DigitChar(r3 % 16)];
    assert ToRadix(r2, 16) == ToRadix(r3, 16) + [DigitChar(r2 % 16)];
    assert ToRadix(r1, 16) == ToRadix(r2, 16) + [DigitChar(r1 % 16)];
  }

  /** The value of a digit string without its first digit. */
  lemma {:induction false} DropLeadingDigit(s: string, radix: nat)
    requires |s| >= 1
    ensures DigitsValue(s, radix) == DigitsValue(s[1..], radix) + DigitValue(s[0]) * Pow(radix, |s| - 1)
  {
    if |s| > 1 {
      var t := s[..|s| - 1];
      DropLeadingDigit(t, radix);
      assert t[1..] == s[1..][..|s[1..]| - 1];
      assert s[1..][|s[1..]| - 1] == s[|s| - 1];
      assert t[0] == s[0];
      var a, d0, p, dl := DigitsValue(t[1..], radix), DigitValue(s[0]), Pow(radix, |s| - 2), DigitValue(s[|s| - 1]);
      assert DigitsValue(s, radix) == DigitsValue(t, radix) * radix + dl;
      assert DigitsValue(t, radix) == a + d0 * p;
      assert DigitsValue(s[1..], radix) == a * radix + dl;
      assert Pow(radix, |s| - 1) == p * radix;
      Distribute(a, d0 * p, radix);
      Associate(d0, p, radix);
    }
  }

  lemma Distribute(a: int, b: int, c: int)
    ensures (a + b) * c == a * c + b * c
  {
  }

  lemma Associate(a: int, b: int, c: int)
    ensures (a * b) * c == a * (b * c)
  {
  }

  function Pow(b: nat, e: nat): nat {
    if e == 0 then 1 else Pow(b, e - 1) * b
  }

  /** Distinct draws give distinct groups. */
  lemma HexGroupInjective(r1: int, r2: int)
    requires IsDraw(r1) && IsDraw(r2) && HexGroup(r1) == HexGroup(r2)
    ensures r1 == r2
  {
  }

  predicate AllDraws(rs: seq<int>) {
    forall i :: 0 <= i < |rs| ==> IsDraw(rs[i])
  }

  /** `getUUID`: the groups of the draws, concatenated in order, so 4 lower-case hex digits per draw. */
  function Uuid(rs: seq<int>): (u: string)
    requires AllDraws(rs)
    ensures |u| == 4 * |rs|
    ensures forall i :: 0 <= i < |u| ==> IsRadixDigit(u[i], 16) && !('A' <= u[i] <= 'F')
  {
    if rs == [] then "" else HexGroup(rs[0]) + Uuid(rs[1..])
  }

  /** `toString(radix)` writes lower-case letters only. */
  lemma {:induction false} ToRadixLowerCase(n: nat, radix: nat)
    requires radix == 10 || radix == 16
    ensures forall i :: 0 <= i < |ToRadix(n, radix)| ==> !('A' <= ToRadix(n, radix)[i] <= 'F')
    decreases n
  {
    if n >= radix {
      ToRadixLowerCase(n / radix, radix);
    }
  }

  /** Two UUIDs from the same number of draws are equal only if the draws are. */
  lemma {:induction false} UuidInjective(rs1: seq<int>, rs2: seq<int>)
    requires AllDraws(rs1) && AllDraws(rs2) && |rs1| == |rs2|
    requires Uuid(rs1) == Uuid(rs2)
    ensures rs1 == rs2
  {
    if rs1 != [] {
      var u1, u2 := Uuid(rs1), Uuid(rs2);
      assert u1[..4] == HexGroup(rs1[0]) && u2[..4] == HexGroup(rs2[0]);
      HexGroupInjective(rs1[0], rs2[0]);
      assert u1[4..] == Uuid(rs1[1..]) && u2[4..] == Uuid(rs2[1..]);
      UuidInjective(rs1[1..], rs2[1..]);
      assert rs1 == [rs1[0]] + rs1[1..];
      assert rs2 == [rs2[0]] + rs2[1..];
    }
  }

  /**
   * `getVirtualId`: the prefix and a UUID of eight draws, so the prefix
   * followed by 32 lower-case hex digits, which `isVirtualId` recognises.
   */
  function GetVirtualId(rs: seq<int>): (id: string)
    requires |rs| == 8 && AllDraws(rs)
    ensures |id| == |VirtualIdPrefix| + 32
    ensures IsVirtualId(id)
    ensures forall i :: |VirtualIdPrefix| <= i < |id| ==> IsRadixDigit(id[i], 16) && !('A' <= id[i] <= 'F')
  {
    VirtualIdPrefix + Uuid(rs)
  }

  /** `isVirtualId`: whether the id starts with the virtual prefix. */
  predicate IsVirtualId(id: string) {
    StartsWith(id, VirtualIdPrefix)
  }

  /** Different draws give different ids. */
  lemma VirtualIdInjective(rs1: seq<int>, rs2: seq<int>)
    requires |rs1| == 8 && AllDraws(rs1) && |rs2| == 8 && AllDraws(rs2)
    requires GetVirtualId(rs1) == GetVirtualId(rs2)
    ensures rs1 == rs2
  {
    assert Uuid(rs1) == GetVirtualId(rs1)[|VirtualIdPrefix|..];
    assert Uuid(rs2) == GetVirtualId(rs2)[|VirtualIdPrefix|..];
    UuidInjective(rs1, rs2);
  }
}
