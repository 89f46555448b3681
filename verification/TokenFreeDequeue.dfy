/** Dequeuing without a token: some producer's oldest element, chosen by size among the first that have any. */
module TokenFreeDequeue {
  import opened BlockQueue
  import opened ImplicitQueue
  import opened Options

  /** Producers in use, each with memory of its own. */
  ghost predicate Apart(producers: seq<ImplicitProducer>)
    reads set i | 0 <= i < |producers| :: producers[i]
  {
    && (forall i, j :: 0 <= i < j < |producers| ==> producers[i] != producers[j])
    && (forall i, j :: 0 <= i < |producers| && 0 <= j < |producers| && i != j ==>
          producers[i].repr !! producers[j].repr && producers[i] !in producers[j].repr)
  }

  ghost predicate AllValid(producers: seq<ImplicitProducer>)
    reads set i | 0 <= i < |producers| :: producers[i]
    reads set i, o | 0 <= i < |producers| && o in producers[i].repr :: o
  {
    forall i :: 0 <= i < |producers| ==> producers[i].Valid()
  }

  ghost function Size(producer: ImplicitProducer): nat
    requires producer.Valid()
    reads producer, producer.repr
  {
    |producer.Contents()|
  }

  ghost function Sizes(producers: seq<ImplicitProducer>): (sizes: seq<nat>)
    requires AllValid(producers)
    reads *
    ensures |sizes| == |producers|
    ensures forall i :: 0 <= i < |producers| ==> sizes[i] == Size(producers[i])
  {
    seq(|producers|, i requires 0 <= i < |producers| && producers[i].Valid()
          reads if 0 <= i < |producers| then {producers[i]} + producers[i].repr else {}
          => Size(producers[i]))
  }

  /** How many of the sizes are not zero. */
  ghost function NonEmpty(sizes: seq<nat>): nat {
    if sizes == [] then 0
    else NonEmpty(sizes[..|sizes| - 1]) + if sizes[|sizes| - 1] > 0 then 1 else 0
  }

  lemma {:induction false} NonEmptyGrows(sizes: seq<nat>, i: nat)
    requires i <= |sizes|
    ensures NonEmpty(sizes[..i]) <= NonEmpty(sizes)
  {
    if i < |sizes| {
      NonEmptyGrows(sizes[..|sizes| - 1], i);
      assert sizes[..|sizes| - 1][..i] == sizes[..i];
    } else {
      assert sizes[..i] == sizes;
    }
  }

  /** The first of the largest among the first three that are not empty. */
  ghost predicate Chosen(sizes: seq<nat>, k: nat) {
    && k < |sizes| && sizes[k] > 0
    && NonEmpty(sizes[..k]) < 3
    && forall j :: 0 <= j < |sizes| && NonEmpty(sizes[..j]) < 3 ==> if j < k then sizes[j] < sizes[k] else sizes[j] <= sizes[k]
  }

  /** What the loop knows of the sizes it has looked at. */
  ghost predicate ChosenSoFar(sizes: seq<nat>, i: nat, best: nat, bestSize: nat) {
    && i <= |sizes|
    && (NonEmpty(sizes[..i]) > 0 <==> bestSize > 0)
    && (bestSize > 0 ==> best < i && bestSize == sizes[best] && NonEmpty(sizes[..best]) < 3)
    && (forall j :: 0 <= j < i ==> if j < best then sizes[j] <= bestSize && (bestSize > 0 ==> sizes[j] < bestSize) else sizes[j] <= bestSize)
  }

  lemma LookOn(sizes: seq<nat>, i: nat, best: nat, bestSize: nat)
    requires ChosenSoFar(sizes, i, best, bestSize) && i < |sizes| && NonEmpty(sizes[..i]) < 3
    ensures NonEmpty(sizes[..i + 1]) == NonEmpty(sizes[..i]) + if sizes[i] > 0 then 1 else 0
    ensures if sizes[i] > bestSize then ChosenSoFar(sizes, i + 1, i, sizes[i])
            else ChosenSoFar(sizes, i + 1, best, bestSize)
  {
    assert sizes[..i + 1][..i] == sizes[..i];
  }

  lemma LookedEnough(sizes: seq<nat>, i: nat, best: nat, bestSize: nat)
    requires ChosenSoFar(sizes, i, best, bestSize) && (i == |sizes| || NonEmpty(sizes[..i]) >= 3)
    ensures if NonEmpty(sizes[..i]) > 0 then Chosen(sizes, best)
            else forall j :: 0 <= j < |sizes| ==> sizes[j] == 0
  {
    forall j | i <= j < |sizes| ensures NonEmpty(sizes[..j]) >= 3 {
      NonEmptyGrows(sizes[..j], i);
      assert sizes[..j][..i] == sizes[..i];
    }
  }

  /**
   Takes the oldest element of the first of the largest of the first three producers that have any, in the
   order of the list; it finds nothing exactly when no producer has any.
  */
  method TryDequeue(producers: seq<ImplicitProducer>) returns (r: Option<Elem>, ghost from: nat)
    requires Apart(producers) && AllValid(producers)
    modifies set i | 0 <= i < |producers| :: producers[i]
    modifies set i, o | 0 <= i < |producers| && o in producers[i].repr :: o
    ensures AllValid(producers)
    ensures r == None ==> forall i :: 0 <= i < |producers| ==> old(producers[i].Contents()) == producers[i].Contents() == []
    ensures r.Some? ==>
              && Chosen(old(Sizes(producers)), from)
              && old(producers[from].Contents()) == [r.value] + producers[from].Contents()
              && (forall i :: 0 <= i < |producers| && i != from ==> producers[i].Contents() == old(producers[i].Contents()))
  {
    hide ImplicitProducer.Valid;
    hide ImplicitProducer.Contents;
    hide NonEmpty;
    hide Chosen;
    hide ChosenSoFar;
    ghost var sizes := Sizes(producers);
    var nonEmptyCount := 0;
    var best: nat := 0;
    var bestSize: nat := 0;
    var i := 0;
    Looking(sizes);
    while nonEmptyCount < 3 && i < |producers|
      invariant 0 <= i <= |producers|
      invariant nonEmptyCount == NonEmpty(sizes[..i]) && ChosenSoFar(sizes, i, best, bestSize)
      modifies {}
    {
      LookOn(sizes, i, best, bestSize);
      var size := producers[i].SizeApprox();
      if size > 0 {
        if size > bestSize {
          bestSize := size;
          best := i;
        }
        nonEmptyCount := nonEmptyCount + 1;
      }
      i := i + 1;
    }
    LookedEnough(sizes, i, best, bestSize);
    r, from := None, best;
    if nonEmptyCount > 0 {
      ChosenInside(sizes, best);
      r := producers[best].Dequeue();
    }
  }

  lemma Looking(sizes: seq<nat>)
    ensures NonEmpty(sizes[..0]) == 0 && ChosenSoFar(sizes, 0, 0, 0)
  {
  }

  lemma ChosenInside(sizes: seq<nat>, k: nat)
    requires Chosen(sizes, k)
    ensures k < |sizes| && sizes[k] > 0
  {
  }
}
