/** Which sender instance owns a destination. The digest is given: any bytes will do. */
module Sharding {

  type Byte = b: int | 0 <= b < 256

  function LittleEndian(bytes: seq<Byte>): nat {
    if bytes == [] then 0 else bytes[0] + 256 * LittleEndian(bytes[1..])
  }

  /** big.Int.SetBytes. */
  function BigEndian(bytes: seq<Byte>): nat {
    if bytes == [] then 0 else 256 * BigEndian(bytes[..|bytes| - 1]) + bytes[|bytes| - 1]
  }

  function Reversed(bytes: seq<Byte>): seq<Byte> {
    if bytes == [] then [] else Reversed(bytes[1..]) + [bytes[0]]
  }

  /** Main: the reversed digest, read big-endian, is the digest read little-endian. */
  lemma {:induction false} ReversedIsLittleEndian(bytes: seq<Byte>)
    ensures BigEndian(Reversed(bytes)) == LittleEndian(bytes)
  {
    if bytes != [] {
      var rest := Reversed(bytes[1..]);
      ReversedIsLittleEndian(bytes[1..]);
      assert (rest + [bytes[0]])[..|rest|] == rest;
    }
  }

  lemma {:induction false} ReversedAt(bytes: seq<Byte>, i: nat)
    requires i < |bytes|
    ensures |Reversed(bytes)| == |bytes| && Reversed(bytes)[|bytes| - 1 - i] == bytes[i]
  {
    if i > 0 {
      ReversedAt(bytes[1..], i - 1);
    } else if |bytes| > 1 {
      ReversedAt(bytes[1..], 0);
    }
  }

  ghost predicate Distinct(instances: seq<string>) {
    forall i, j :: 0 <= i < j < |instances| ==> instances[i] != instances[j]
  }

  /** The instance, by index: the little-endian value of the digest, modulo how many there are. */
  function Owner(instances: seq<string>, digest: seq<Byte>): nat
    requires instances != []
  {
    LittleEndian(digest) % |instances|
  }

  /** Whether an instance handles a destination. */
  predicate Handles(instances: seq<string>, me: string, digest: seq<Byte>) {
    instances != [] && instances[Owner(instances, digest)] == me
  }

  class Config {
    const instances: seq<string>   // in configuration order

    constructor (instances: seq<string>)
      ensures this.instances == instances
    {
      this.instances := instances;
    }

    method GetInstance(digest: seq<Byte>) returns (name: string)
      ensures name == if instances == [] then "" else instances[LittleEndian(digest) % |instances|]
    {
      if |instances| == 0 {
        return "";
      }
      if |instances| == 1 {
        return instances[0];
      }
      var le := new Byte[|digest|];
      for i := 0 to |digest|
        invariant forall j :: 0 <= j < i ==> le[|digest| - 1 - j] == digest[j]
      {
        le[|digest| - 1 - i] := digest[i];
      }
      assert le[..] == Reversed(digest) by {
        forall k | 0 <= k < |digest| ensures |Reversed(digest)| == |digest| && le[..][k] == Reversed(digest)[k] {
          ReversedAt(digest, |digest| - 1 - k);
        }
        assert digest == [] ==> Reversed(digest) == [];
      }
      ReversedIsLittleEndian(digest);
      return instances[BigEndian(le[..]) % |instances|];
    }

    method ShouldHandle(me: string, digest: seq<Byte>) returns (mine: bool)
      ensures mine <==> instances != [] && instances[LittleEndian(digest) % |instances|] == me
    {
      if |instances| == 0 {
        return false;
      }
      var owner := GetInstance(digest);
      return owner == me;
    }
  }

  /** Main: instances that agree on the list split the destinations: each is handled by
      exactly one, who is on the list. With a name listed twice it is still one name. */
  lemma ExactlyOneHandles(instances: seq<string>, digest: seq<Byte>)
    requires instances != []
    ensures exists me :: me in instances && Handles(instances, me, digest)
    ensures forall a, b :: Handles(instances, a, digest) && Handles(instances, b, digest) ==> a == b
    ensures Distinct(instances) ==>
              forall i :: 0 <= i < |instances| ==>
                            (Handles(instances, instances[i], digest) <==> i == LittleEndian(digest) % |instances|)
  {
    assert Handles(instances, instances[Owner(instances, digest)], digest);
  }
}
