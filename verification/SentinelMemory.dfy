/** What a sentinel remembers of its replicas, as flat lists of names and values. */
module SentinelMemory {
  type Blob = seq<string>

  /** The value behind the first occurrence of `name` in name position; empty when there is none. */
  function Field(name: string, blob: Blob): string {
    if |blob| < 2 then ""
    else if blob[0] == name then blob[1]
    else Field(name, blob[2..])
  }

  /** Position 2j holds the name, has a value behind it, and no earlier name position holds it. */
  ghost predicate FirstNamed(name: string, blob: Blob, j: nat) {
    && 2 * j + 1 < |blob| && blob[2 * j] == name
    && forall l :: 0 <= l < j ==> blob[2 * l] != name
  }

  /**
   * Names are looked for in even positions only, so a value that happens to equal the name
   * never counts, and neither does a trailing name without a value.
   */
  lemma {:induction false} FieldReadsNamePositions(name: string, blob: Blob)
    ensures forall j: nat :: FirstNamed(name, blob, j) ==> Field(name, blob) == blob[2 * j + 1]
    ensures (forall j: nat :: !FirstNamed(name, blob, j)) ==> Field(name, blob) == ""
  {
    if |blob| >= 2 && blob[0] != name {
      var rest := blob[2..];
      FieldReadsNamePositions(name, rest);
      forall j: nat | FirstNamed(name, blob, j)
        ensures j >= 1 && FirstNamed(name, rest, j - 1)
      {
        assert rest[2 * (j - 1)] == blob[2 * j];
        forall l | 0 <= l < j - 1
          ensures rest[2 * l] != name
        {
          assert rest[2 * l] == blob[2 * (l + 1)];
        }
      }
      if exists j: nat :: FirstNamed(name, rest, j) {
        var j: nat :| FirstNamed(name, rest, j);
        forall l | 0 <= l < j + 1
          ensures blob[2 * l] != name
        {
          if l > 0 {
            assert blob[2 * l] == rest[2 * (l - 1)];
          }
        }
        assert FirstNamed(name, blob, j + 1);
      }
    } else if |blob| >= 2 {
      assert FirstNamed(name, blob, 0);
    }
  }

  /** The loop over the pairs. */
  method SlaveInfoFieldByName(name: string, blob: Blob) returns (value: string)
    ensures value == Field(name, blob)
  {
    var i := 0;
    while i + 1 < |blob|
      invariant 0 <= i <= |blob|
      invariant Field(name, blob) == Field(name, blob[i..])
    {
      if blob[i] == name {
        return blob[i + 1];
      }
      assert blob[i..][2..] == blob[i + 2..];
      i := i + 2;
    }
    return "";
  }

  /** A replica counts unless its priority excludes it from promotion. */
  predicate Eligible(blob: Blob) {
    Field("slave-priority", blob) != "0"
  }

  function CountEligible(blobs: seq<Blob>): (n: nat)
    ensures n <= |blobs|
  {
    if blobs == [] then 0
    else CountEligible(blobs[..|blobs| - 1]) + if Eligible(blobs[|blobs| - 1]) then 1 else 0
  }

  /** A replica that sentinel would never promote: the first name `slave-priority` has the value 0. */
  ghost predicate Excluded(blob: Blob) {
    exists j: nat :: FirstNamed("slave-priority", blob, j) && blob[2 * j + 1] == "0"
  }

  lemma EligibleIffNotExcluded(blob: Blob)
    ensures Eligible(blob) <==> !Excluded(blob)
  {
    FieldReadsNamePositions("slave-priority", blob);
    if !Eligible(blob) {
      var j: nat :| FirstNamed("slave-priority", blob, j);
    }
  }

  lemma {:induction false} CountIsSetSize(blobs: seq<Blob>)
    ensures CountEligible(blobs) == |set k | 0 <= k < |blobs| && Eligible(blobs[k])|
  {
    var all := set k | 0 <= k < |blobs| && Eligible(blobs[k]);
    if blobs == [] {
      assert all == {};
    } else {
      var n := |blobs| - 1;
      var front := blobs[..n];
      CountIsSetSize(front);
      var some := set k | 0 <= k < |front| && Eligible(front[k]);
      assert all == some + if Eligible(blobs[n]) then {n} else {};
    }
  }

  /** The count is the number of replicas whose priority is not 0; one without a priority counts. */
  lemma CountIsCardinality(blobs: seq<Blob>)
    ensures CountEligible(blobs) == |set k | 0 <= k < |blobs| && !Excluded(blobs[k])|
  {
    hide Eligible;
    hide Excluded;
    CountIsSetSize(blobs);
    forall k | 0 <= k < |blobs|
      ensures Eligible(blobs[k]) <==> !Excluded(blobs[k])
    {
      EligibleIffNotExcluded(blobs[k]);
    }
    assert (set k | 0 <= k < |blobs| && Eligible(blobs[k])) == set k | 0 <= k < |blobs| && !Excluded(blobs[k]);
  }

  /** Starts from all replicas and takes off the excluded ones. */
  method CountSlaves(blobs: seq<Blob>) returns (nSlaves: int)
    ensures nSlaves == CountEligible(blobs)
  {
    nSlaves := |blobs|;
    for k := 0 to |blobs|
      invariant nSlaves == CountEligible(blobs[..k]) + |blobs| - k
    {
      var priority := SlaveInfoFieldByName("slave-priority", blobs[k]);
      assert blobs[..k + 1][..k] == blobs[..k];
      if priority == "0" {
        nSlaves := nSlaves - 1;
      }
    }
    assert blobs[..|blobs|] == blobs;
  }
}
