/**
 * The invertible 64-bit integer hash and the packed store key that goes into it
 * (utils/mymath.hpp, core/gstore.hpp).  Arithmetic is modulo 2^64, so the model
 * works on bv64.
 */
module HashU64 {

  // The seven reversible mixing steps of the hash.
  function NotAddShift21(k: bv64): bv64 { !k + (k << 21) }
  function XorShift24(k: bv64): bv64 { k ^ (k >> 24) }
  function Times265(k: bv64): bv64 { (k + (k << 3)) + (k << 8) }
  function XorShift14(k: bv64): bv64 { k ^ (k >> 14) }
  function Times21(k: bv64): bv64 { (k + (k << 2)) + (k << 4) }
  function XorShift28(k: bv64): bv64 { k ^ (k >> 28) }
  function AddShift31(k: bv64): bv64 { k + (k << 31) }

  // The code's inverse of each step, in the order the inverse applies them.
  function UndoAddShift31(k: bv64): bv64 {
    var tmp := k - (k << 31);
    k - (tmp << 31)
  }

  function UndoXorShift28(k: bv64): bv64 {
    var tmp := k ^ (k >> 28);
    k ^ (tmp >> 28)
  }

  function UndoTimes21(k: bv64): bv64 { k * 14933078535860113213 }

  function UndoXorShift14(k: bv64): bv64 {
    var tmp := k ^ (k >> 14);
    var tmp := k ^ (tmp >> 14);
    var tmp := k ^ (tmp >> 14);
    k ^ (tmp >> 14)
  }

  function UndoTimes265(k: bv64): bv64 { k * 15244667743933553977 }

  function UndoXorShift24(k: bv64): bv64 {
    var tmp := k ^ (k >> 24);
    k ^ (tmp >> 24)
  }

  function UndoNotAddShift21(k: bv64): bv64 {
    var tmp := !k;
    var tmp := !(k - (tmp << 21));
    var tmp := !(k - (tmp << 21));
    !(k - (tmp << 21))
  }

  function Hash(key: bv64): bv64 {
    AddShift31(XorShift28(Times21(XorShift14(Times265(XorShift24(NotAddShift21(key)))))))
  }

  function InverseHash(key: bv64): bv64 {
    UndoNotAddShift21(UndoXorShift24(UndoTimes265(UndoXorShift14(UndoTimes21(UndoXorShift28(UndoAddShift31(key)))))))
  }

  // Each step and its inverse cancel, in both orders.  The asserted instances
  // write the inner call out, which lets the bit-vector terms cancel.
  lemma NotAddShift21Cancels(k: bv64)
    ensures UndoNotAddShift21(NotAddShift21(k)) == k && NotAddShift21(UndoNotAddShift21(k)) == k
  {
    assert UndoNotAddShift21(!k + (k << 21)) == k;
    assert NotAddShift21(!(k - (!(k - (!(k - (!k << 21)) << 21)) << 21))) == k;
  }

  lemma XorShift24Cancels(k: bv64)
    ensures UndoXorShift24(XorShift24(k)) == k && XorShift24(UndoXorShift24(k)) == k
  {
    assert UndoXorShift24(k ^ (k >> 24)) == k;
    assert XorShift24(k ^ ((k ^ (k >> 24)) >> 24)) == k;
  }

  lemma Times265FirstShift(k: bv64)
    ensures k + (k << 3) == k * 9
  {
  }

  lemma Times265SecondShift(k: bv64)
    ensures k * 9 + (k << 8) == k * 265
  {
  }

  lemma Times265IsMul(k: bv64)
    ensures Times265(k) == k * 265
  {
    Times265FirstShift(k);
    Times265SecondShift(k);
  }

  lemma UndoTimes265Mul(k: bv64)
    ensures UndoTimes265(k * 265) == k
  {
  }

  lemma Times265Mul(k: bv64)
    ensures Times265(k * 15244667743933553977) == k
  {
    hide Times265;
    forall x: bv64
      ensures Times265(x) == x * 265
    {
      Times265IsMul(x);
    }
  }

  lemma Times265Cancels(k: bv64)
    ensures UndoTimes265(Times265(k)) == k && Times265(UndoTimes265(k)) == k
  {
    assert UndoTimes265(Times265(k)) == k by {
      hide *;
      Times265IsMul(k);
      UndoTimes265Mul(k);
    }
    assert Times265(UndoTimes265(k)) == k by {
      hide Times265;
      Times265Mul(k);
    }
  }

  lemma XorShift14Cancels(k: bv64)
    ensures UndoXorShift14(XorShift14(k)) == k && XorShift14(UndoXorShift14(k)) == k
  {
    assert UndoXorShift14(k ^ (k >> 14)) == k;
    assert XorShift14(k ^ ((k ^ ((k ^ ((k ^ (k >> 14)) >> 14)) >> 14)) >> 14)) == k;
  }

  lemma Times21FirstShift(k: bv64)
    ensures k + (k << 2) == k * 5
  {
  }

  lemma Times21SecondShift(k: bv64)
    ensures k * 5 + (k << 4) == k * 21
  {
  }

  lemma Times21IsMul(k: bv64)
    ensures Times21(k) == k * 21
  {
    Times21FirstShift(k);
    Times21SecondShift(k);
  }

  lemma UndoTimes21Mul(k: bv64)
    ensures UndoTimes21(k * 21) == k
  {
  }

  lemma Times21Mul(k: bv64)
    ensures Times21(k * 14933078535860113213) == k
  {
    hide Times21;
    forall x: bv64
      ensures Times21(x) == x * 21
    {
      Times21IsMul(x);
    }
  }

  lemma Times21Cancels(k: bv64)
    ensures UndoTimes21(Times21(k)) == k && Times21(UndoTimes21(k)) == k
  {
    assert UndoTimes21(Times21(k)) == k by {
      hide *;
      Times21IsMul(k);
      UndoTimes21Mul(k);
    }
    assert Times21(UndoTimes21(k)) == k by {
      hide Times21;
      Times21Mul(k);
    }
  }

  lemma XorShift28Cancels(k: bv64)
    ensures UndoXorShift28(XorShift28(k)) == k && XorShift28(UndoXorShift28(k)) == k
  {
    assert UndoXorShift28(k ^ (k >> 28)) == k;
    assert XorShift28(k ^ ((k ^ (k >> 28)) >> 28)) == k;
  }

  lemma AddShift31Cancels(k: bv64)
    ensures UndoAddShift31(AddShift31(k)) == k && AddShift31(UndoAddShift31(k)) == k
  {
    assert UndoAddShift31(k + (k << 31)) == k;
    assert AddShift31(k - ((k - (k << 31)) << 31)) == k;
  }

  /** The hash loses nothing: the code's inverse is a two-sided inverse on all 64-bit keys. */
  lemma InverseHashIsInverse(key: bv64)
    ensures InverseHash(Hash(key)) == key
    ensures Hash(InverseHash(key)) == key
  {
    HashThenInverse(key);
    InverseThenHash(key);
  }

  lemma HashThenInverse(key: bv64)
    ensures InverseHash(Hash(key)) == key
  {
    var k1 := NotAddShift21(key);
    var k2 := XorShift24(k1);
    var k3 := Times265(k2);
    var k4 := XorShift14(k3);
    var k5 := Times21(k4);
    var k6 := XorShift28(k5);
    NotAddShift21Cancels(key);
    XorShift24Cancels(k1);
    Times265Cancels(k2);
    XorShift14Cancels(k3);
    Times21Cancels(k4);
    XorShift28Cancels(k5);
    AddShift31Cancels(k6);
  }

  lemma InverseThenHash(key: bv64)
    ensures Hash(InverseHash(key)) == key
  {
    var k1 := UndoAddShift31(key);
    var k2 := UndoXorShift28(k1);
    var k3 := UndoTimes21(k2);
    var k4 := UndoXorShift14(k3);
    var k5 := UndoTimes265(k4);
    var k6 := UndoXorShift24(k5);
    AddShift31Cancels(key);
    XorShift28Cancels(k1);
    Times21Cancels(k2);
    XorShift14Cancels(k3);
    Times265Cancels(k4);
    XorShift24Cancels(k5);
    NotAddShift21Cancels(k6);
  }

  // ---- store keys: vid (46 bits) | pid (17 bits) | dir (1 bit) ----

  ghost predicate FitsKey(vid: bv64, pid: bv64, dir: bv64) {
    vid < 0x4000_0000_0000 && pid < 0x2_0000 && dir < 2
  }

  function Pack(vid: bv64, pid: bv64, dir: bv64): bv64 {
    (((vid << 17) + pid) << 1) + dir
  }

  function KeyHash(vid: bv64, pid: bv64, dir: bv64): bv64 {
    Hash(Pack(vid, pid, dir))
  }

  /** A store key can be read back from its 64-bit hash, so two different keys never collide
      before the bucket modulus is taken. */
  lemma KeyHashInjective(v1: bv64, p1: bv64, d1: bv64, v2: bv64, p2: bv64, d2: bv64)
    requires FitsKey(v1, p1, d1) && FitsKey(v2, p2, d2)
    ensures KeyHash(v1, p1, d1) == KeyHash(v2, p2, d2) <==> v1 == v2 && p1 == p2 && d1 == d2
  {
    HashThenInverse(Pack(v1, p1, d1));
    HashThenInverse(Pack(v2, p2, d2));
    if KeyHash(v1, p1, d1) == KeyHash(v2, p2, d2) {
      assert Pack(v1, p1, d1) == Pack(v2, p2, d2);
      PackInjective(v1, p1, d1, v2, p2, d2);
    }
  }

  lemma PackInjective(v1: bv64, p1: bv64, d1: bv64, v2: bv64, p2: bv64, d2: bv64)
    requires FitsKey(v1, p1, d1) && FitsKey(v2, p2, d2)
    requires Pack(v1, p1, d1) == Pack(v2, p2, d2)
    ensures v1 == v2 && p1 == p2 && d1 == d2
  {
  }
}
