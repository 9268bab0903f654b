/** Which byte strings are UTF-8: exactly the encodings of sequences of Unicode scalar values. */
module Utf8 {
  import opened Gguf

  /** A code point that is not a surrogate. */
  predicate Scalar(c: nat) {
    c < 0x11_0000 && !(0xD800 <= c < 0xE000)
  }

  function EncodeScalar(c: nat): seq<Byte>
    requires Scalar(c)
  {
    if c < 0x80 then [c]
    else if c < 0x800 then [0xC0 + c / 0x40, 0x80 + c % 0x40]
    else if c < 0x1_0000 then [0xE0 + c / 0x1000, 0x80 + c / 0x40 % 0x40, 0x80 + c % 0x40]
    else [0xF0 + c / 0x4_0000, 0x80 + c / 0x1000 % 0x40, 0x80 + c / 0x40 % 0x40, 0x80 + c % 0x40]
  }

  function EncodeScalars(cs: seq<nat>): seq<Byte>
    requires forall i :: 0 <= i < |cs| ==> Scalar(cs[i])
  {
    if cs == [] then [] else EncodeScalar(cs[0]) + EncodeScalars(cs[1..])
  }

  /** The bytes of a scalar, one by one. */
  lemma ScalarBytes(c: nat)
    requires Scalar(c)
    ensures var e, n := EncodeScalar(c), |EncodeScalar(c)|;
      && (n == 1 ==> e[0] < 0x80) && (n == 2 ==> 0xC2 <= e[0] <= 0xDF)
      && (n == 3 ==> 0xE0 <= e[0] <= 0xEF && (e[0] == 0xE0 ==> 0xA0 <= e[1]) && (e[0] == 0xED ==> e[1] <= 0x9F))
      && (n == 4 ==> 0xF0 <= e[0] <= 0xF4 && (e[0] == 0xF0 ==> 0x90 <= e[1]) && (e[0] == 0xF4 ==> e[1] <= 0x8F))
      && 1 <= n <= 4 && forall i :: 1 <= i < n ==> 0x80 <= e[i] <= 0xBF
  {
  }

  /** One encoded scalar in front keeps a string valid. */
  lemma ValidWithScalar(c: nat, rest: seq<Byte>)
    requires Scalar(c) && ValidUtf8(rest)
    ensures ValidUtf8(EncodeScalar(c) + rest)
  {
    hide EncodeScalar;
    var e := EncodeScalar(c);
    var s := e + rest;
    ScalarBytes(c);
    assert s[|e|..] == rest && forall i :: 0 <= i < |e| ==> s[i] == e[i];
  }

  lemma TwoBytes(x: nat, y: nat)
    requires 2 <= x < 0x20 && y < 0x40
    ensures Scalar(x * 0x40 + y) && EncodeScalar(x * 0x40 + y) == [0xC0 + x, 0x80 + y]
  {
  }

  lemma ThreeBytes(x: nat, y: nat, z: nat)
    requires x < 0x10 && (if x == 0 then 0x20 else 0) <= y < (if x == 0xD then 0x20 else 0x40) && z < 0x40
    ensures var c := x * 0x1000 + y * 0x40 + z;
      Scalar(c) && EncodeScalar(c) == [0xE0 + x, 0x80 + y, 0x80 + z]
  {
    var c := x * 0x1000 + y * 0x40 + z;
    assert c / 0x40 == x * 0x40 + y && c / 0x1000 == x;
  }

  lemma FourBytes(x: nat, y: nat, z: nat, w: nat)
    requires x < 5 && (if x == 0 then 0x10 else 0) <= y < (if x == 4 then 0x10 else 0x40) && z < 0x40 && w < 0x40
    ensures var c := x * 0x4_0000 + y * 0x1000 + z * 0x40 + w;
      Scalar(c) && EncodeScalar(c) == [0xF0 + x, 0x80 + y, 0x80 + z, 0x80 + w]
  {
    var c := x * 0x4_0000 + y * 0x1000 + z * 0x40 + w;
    assert c / 0x40 == x * 0x1000 + y * 0x40 + z && c / 0x1000 == x * 0x40 + y && c / 0x4_0000 == x;
  }

  /** The scalar at the front of a valid string. */
  lemma FirstScalar(s: seq<Byte>) returns (c: nat, n: nat)
    requires ValidUtf8(s) && s != []
    ensures Scalar(c) && 0 < n <= |s| && s[..n] == EncodeScalar(c) && ValidUtf8(s[n..])
  {
    var b: nat := s[0];
    if b < 0x80 {
      c, n := b, 1;
    } else {
      hide EncodeScalar, Scalar;
      var y: nat := s[1] as nat - 0x80;
      if b <= 0xDF {
        c, n := (b - 0xC0) * 0x40 + y, 2;
        TwoBytes(b - 0xC0, y);
      } else {
        var z: nat := s[2] as nat - 0x80;
        if b <= 0xEF {
          c, n := (b - 0xE0) * 0x1000 + y * 0x40 + z, 3;
          ThreeBytes(b - 0xE0, y, z);
        } else {
          var w: nat := s[3] as nat - 0x80;
          c, n := (b - 0xF0) * 0x4_0000 + y * 0x1000 + z * 0x40 + w, 4;
          FourBytes(b - 0xF0, y, z, w);
        }
      }
    }
  }

  lemma {:induction false} ScalarsValid(cs: seq<nat>)
    requires forall i :: 0 <= i < |cs| ==> Scalar(cs[i])
    ensures ValidUtf8(EncodeScalars(cs))
  {
    if cs != [] {
      ScalarsValid(cs[1..]);
      ValidWithScalar(cs[0], EncodeScalars(cs[1..]));
    }
  }

  lemma {:induction false} ValidScalars(s: seq<Byte>) returns (cs: seq<nat>)
    requires ValidUtf8(s)
    ensures (forall i :: 0 <= i < |cs| ==> Scalar(cs[i])) && EncodeScalars(cs) == s
    decreases |s|
  {
    hide EncodeScalar, ValidUtf8, Scalar;
    if s == [] {
      cs := [];
    } else {
      var c, n := FirstScalar(s);
      var rest := ValidScalars(s[n..]);
      cs := [c] + rest;
      assert cs[0] == c && cs[1..] == rest && s == s[..n] + s[n..];
    }
  }

  /** Strings are accepted if and only if they encode Unicode scalar values. */
  lemma ValidWhen(s: seq<Byte>)
    ensures ValidUtf8(s) <==>
      exists cs: seq<nat> :: (forall i :: 0 <= i < |cs| ==> Scalar(cs[i])) && EncodeScalars(cs) == s
  {
    hide ValidUtf8, EncodeScalars;
    if ValidUtf8(s) {
      var cs := ValidScalars(s);
    }
    if cs: seq<nat> :| (forall i :: 0 <= i < |cs| ==> Scalar(cs[i])) && EncodeScalars(cs) == s {
      ScalarsValid(cs);
    }
  }
}
