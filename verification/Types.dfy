/** Values shared by the held pool, the optimistic ledger, the drain and the deriver. */
module Types {

  datatype Option<+T> = None | Some(value: T)

  const U64_MAX: nat := 0xFFFF_FFFF_FFFF_FFFF
  const U128_MAX: nat := 0xFFFF_FFFF_FFFF_FFFF_FFFF_FFFF_FFFF_FFFF

  type u64 = n: nat | n <= U64_MAX
  type u128 = n: nat | n <= U128_MAX

  type Address = nat
  type TxHash = nat
  type Bytes = seq<bv8>

  datatype Direction = Inbound | Outbound

  /** One nonce chain: inbound and outbound transactions of one sender advance independently. */
  datatype NonceChain = NonceChain(sender: Address, direction: Direction)

  datatype HeldTx = HeldTx(
    raw: Bytes,
    hash: TxHash,
    attempts: nat,
    sender: Address,
    nonce: u64,
    direction: Direction,
    maxFee: u128,
    priorityFee: u128)
  {
    function Chain(): NonceChain { NonceChain(sender, direction) }

    function Reserve(): Reservation { Reservation(sender, direction, nonce) }
  }

  /** What an in-flight reservation records about a drained transaction. */
  datatype Reservation = Reservation(sender: Address, direction: Direction, nonce: u64)
  {
    function Chain(): NonceChain { NonceChain(sender, direction) }

    predicate AtOrAbove(c: NonceChain, n: nat) { Chain() == c && nonce >= n }
  }

  function Hashes(txs: seq<HeldTx>): set<TxHash> {
    set tx | tx in txs :: tx.hash
  }

  ghost predicate Distinct(txs: seq<HeldTx>) {
    forall i, j :: 0 <= i < j < |txs| ==> txs[i].hash != txs[j].hash
  }

  /** Every nonce chain appears in strictly rising nonce order. */
  ghost predicate ChainOrdered(txs: seq<HeldTx>) {
    forall i, j :: 0 <= i < j < |txs| && txs[i].Chain() == txs[j].Chain() ==> txs[i].nonce < txs[j].nonce
  }

  lemma {:induction false} HashesAppend(a: seq<HeldTx>, b: seq<HeldTx>)
    ensures Hashes(a + b) == Hashes(a) + Hashes(b)
  {
  }

  lemma {:induction false} HashesCons(txs: seq<HeldTx>)
    requires txs != []
    ensures Hashes(txs) == {txs[0].hash} + Hashes(txs[1..])
  {
    assert txs == [txs[0]] + txs[1..];
    HashesAppend([txs[0]], txs[1..]);
  }

  lemma {:induction false} HashesSnoc(txs: seq<HeldTx>, i: nat)
    requires i < |txs|
    ensures Hashes(txs[..i + 1]) == Hashes(txs[..i]) + {txs[i].hash}
  {
    assert txs[..i + 1] == txs[..i] + [txs[i]];
    HashesAppend(txs[..i], [txs[i]]);
  }

  lemma {:induction false} DistinctHead(txs: seq<HeldTx>)
    requires Distinct(txs) && txs != []
    ensures Distinct(txs[1..]) && txs[0].hash !in Hashes(txs[1..])
  {
  }

  lemma {:induction false} DistinctAppend(a: seq<HeldTx>, b: seq<HeldTx>)
    requires Distinct(a) && Distinct(b) && Hashes(a) !! Hashes(b)
    ensures Distinct(a + b)
  {
    forall i, j | 0 <= i < j < |a + b|
      ensures (a + b)[i].hash != (a + b)[j].hash
    {
      if i < |a| <= j {
        assert a[i].hash in Hashes(a) && b[j - |a|].hash in Hashes(b);
      }
    }
  }

  lemma {:induction false} DistinctSplit(a: seq<HeldTx>, b: seq<HeldTx>)
    requires Distinct(a + b)
    ensures Distinct(a) && Distinct(b) && Hashes(a) !! Hashes(b)
  {
    forall i, j | 0 <= i < |a| && 0 <= j < |b|
      ensures a[i].hash != b[j].hash
    {
      assert (a + b)[i] == a[i] && (a + b)[|a| + j] == b[j];
    }
    forall i, j | 0 <= i < j < |a|
      ensures a[i].hash != a[j].hash
    {
      assert (a + b)[i] == a[i] && (a + b)[j] == a[j];
    }
    forall i, j | 0 <= i < j < |b|
      ensures b[i].hash != b[j].hash
    {
      assert (a + b)[|a| + i] == b[i] && (a + b)[|a| + j] == b[j];
    }
  }

  lemma {:induction false} OrderedInit(txs: seq<HeldTx>)
    requires ChainOrdered(txs) && txs != []
    ensures
      var init, last := txs[..|txs| - 1], txs[|txs| - 1];
      ChainOrdered(init) && forall tx :: tx in init && tx.Chain() == last.Chain() ==> tx.nonce < last.nonce
  {
    var init, last := txs[..|txs| - 1], txs[|txs| - 1];
    forall i | 0 <= i < |init| && init[i].Chain() == last.Chain()
      ensures init[i].nonce < last.nonce
    {
      assert txs[i] == init[i];
    }
  }

  lemma {:induction false} OrderedSnoc(txs: seq<HeldTx>, tx: HeldTx)
    requires ChainOrdered(txs) && forall x :: x in txs && x.Chain() == tx.Chain() ==> x.nonce < tx.nonce
    ensures ChainOrdered(txs + [tx])
  {
    var all := txs + [tx];
    forall i, j | 0 <= i < j < |all| && all[i].Chain() == all[j].Chain()
      ensures all[i].nonce < all[j].nonce
    {
      assert all[i] == txs[i] && txs[i] in txs;
      if j < |txs| { assert all[j] == txs[j]; }
    }
  }

  /** The greatest element of a non-empty set. */
  function Max(s: set<nat>): (m: nat)
    requires s != {}
    ensures m in s && forall x :: x in s ==> x <= m
  {
    MaxExists(s);
    var m :| m in s && forall x :: x in s ==> x <= m;
    m
  }

  lemma {:induction false} MaxExists(s: set<nat>)
    requires s != {}
    ensures exists m :: m in s && forall x :: x in s ==> x <= m
  {
    var x :| x in s;
    if s != {x} {
      MaxExists(s - {x});
      var m :| m in s - {x} && forall y :: y in s - {x} ==> y <= m;
      var best := if x <= m then m else x;
      forall y | y in s
        ensures y <= best
      {
        if y != x { assert y in s - {x}; }
      }
      assert best in s;
    } else {
      assert forall y :: y in s ==> y <= x;
    }
  }

  /** The least element of a non-empty set. */
  function Min(s: set<nat>): (m: nat)
    requires s != {}
    ensures m in s && forall x :: x in s ==> m <= x
  {
    MinExists(s);
    var m :| m in s && forall x :: x in s ==> m <= x;
    m
  }

  lemma {:induction false} MinExists(s: set<nat>)
    requires s != {}
    ensures exists m :: m in s && forall x :: x in s ==> m <= x
  {
    var x :| x in s;
    if s != {x} {
      MinExists(s - {x});
      var m :| m in s - {x} && forall y :: y in s - {x} ==> m <= y;
      var best := if x <= m then x else m;
      forall y | y in s
        ensures best <= y
      {
        if y != x { assert y in s - {x}; }
      }
      assert best in s;
    } else {
      assert forall y :: y in s ==> x <= y;
    }
  }

  /** `u64` saturating addition. */
  function SatAdd(a: nat, b: nat): nat {
    if a + b <= U64_MAX then a + b else U64_MAX
  }

  /** `u64` saturating subtraction. */
  function SatSub(a: nat, b: nat): nat {
    if b <= a then a - b else 0
  }

  /** `u64` saturating multiplication. */
  function SatMul(a: nat, b: nat): nat {
    if a * b <= U64_MAX then a * b else U64_MAX
  }
}
