/** The lazily initialised HS256 signing key shared by token issuing and
    token parsing. Random key generation is a parameter: `generated` is the
    key the HS256 key builder would produce if it were called now. */
module KeyGen {
  import opened Wrappers

  /** An HS256 secret key: 256 bits. A value of this type is never null. */
  type SecretKey = k: seq<bv8> | |k| == 32 witness seq(32, _ => 0 as bv8)

  /** One call of getKey on field value `key`: the field afterwards and the
      key returned. */
  function GetKeyStep(key: Option<SecretKey>, generated: SecretKey): (out: (Option<SecretKey>, SecretKey))
    ensures out.0 == Some(out.1)
    ensures key.Some? ==> out.0 == key
    ensures out.1 == if key.Some? then key.value else generated
  {
    if key.None? then (Some(generated), generated) else (key, key.value)
  }

  /** The keys returned by successive calls of getKey, starting from field
      value `key`, where generated[i] is what generation would yield at call i. */
  function ReturnedKeys(key: Option<SecretKey>, generated: seq<SecretKey>): seq<SecretKey>
    decreases |generated|
  {
    if generated == [] then []
    else
      var (next, k) := GetKeyStep(key, generated[0]);
      [k] + ReturnedKeys(next, generated[1..])
  }

  /** How many of those successive calls generate a key. */
  function Generations(key: Option<SecretKey>, generated: seq<SecretKey>): nat
    decreases |generated|
  {
    if generated == [] then 0
    else
      var (next, _) := GetKeyStep(key, generated[0]);
      (if key.None? then 1 else 0) + Generations(next, generated[1..])
  }

  /** Every call in a sequence of calls returns the same key: the stored key
      if there is one, otherwise the key generated by the first call. */
  lemma {:induction false} EveryCallReturnsOneKey(key: Option<SecretKey>, generated: seq<SecretKey>)
    ensures |ReturnedKeys(key, generated)| == |generated|
    ensures forall i :: 0 <= i < |generated| ==>
              ReturnedKeys(key, generated)[i] == (if key.Some? then key.value else generated[0])
    decreases |generated|
  {
    if generated != [] {
      var (next, k) := GetKeyStep(key, generated[0]);
      assert next == Some(k);
      EveryCallReturnsOneKey(next, generated[1..]);
    }
  }

  /** Over any sequence of calls at most one generates a key, and one does
      exactly when the field starts out null and there is at least one call. */
  lemma {:induction false} GeneratedAtMostOnce(key: Option<SecretKey>, generated: seq<SecretKey>)
    ensures Generations(key, generated) <= 1
    ensures Generations(key, generated) == 1 <==> key.None? && generated != []
    decreases |generated|
  {
    if generated != [] {
      var (next, _) := GetKeyStep(key, generated[0]);
      assert next.Some?;
      NoGenerationOnceSet(next, generated[1..]);
    }
  }

  lemma {:induction false} NoGenerationOnceSet(key: Option<SecretKey>, generated: seq<SecretKey>)
    requires key.Some?
    ensures Generations(key, generated) == 0
    decreases |generated|
  {
    if generated != [] {
      NoGenerationOnceSet(key, generated[1..]);
    }
  }

  class SecretKeyGenerator {
    /** The cached key; None until the first call of GetKey. */
    var key: Option<SecretKey>
    /** How many keys this object has generated so far. */
    ghost var generations: nat

    ghost predicate Valid()
      reads this
    {
      generations == if key.Some? then 1 else 0
    }

    constructor ()
      ensures Valid()
      ensures key == None && generations == 0
    {
      key := None;
      generations := 0;
    }

    /** Returns the cached key, generating and caching one on the first call. */
    method GetKey(generated: SecretKey) returns (k: SecretKey)
      requires Valid()
      modifies this
      ensures Valid() && generations <= 1
      ensures (key, k) == GetKeyStep(old(key), generated)
      ensures key == Some(k)
      ensures old(key).None? ==> k == generated && generations == 1
      ensures old(key).Some? ==> k == old(key).value && key == old(key) && generations == old(generations)
    {
      if key.None? {
        key := Some(generated);
        generations := generations + 1;
      }
      k := key.value;
    }
  }
}
