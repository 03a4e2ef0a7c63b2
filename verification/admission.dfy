/** Whether an offer is big enough for a node plus its executor. Quantities are
    Dafny reals: the IEEE double rounding of the source is abstracted away. */
module Admission {
  import opened Config
  import opened Mesos

  /** Cpus the offer must provide: the node's demand plus the executor's. */
  function RequiredCpus(c: FrameworkConfig, nodeCpus: real): real {
    nodeCpus + ExecutorCpus(c)
  }

  /** Memory the offer must provide: node heap and executor heap, each with JVM overhead. */
  function RequiredMem(c: FrameworkConfig, nodeHeap: int): real {
    (nodeHeap as real * JvmOverhead(c)) + (ExecutorHeap(c) as real * JvmOverhead(c))
  }

  /** Scans the resources in order; true at the first entry named `name` below `required`. */
  function ShortOf(resources: seq<Resource>, name: string, required: real): (r: bool)
    ensures r <==> exists i :: 0 <= i < |resources| && resources[i].name == name && required > resources[i].value
  {
    if |resources| == 0 then false
    else if resources[0].name == name && required > resources[0].value then true
    else
      var rest := ShortOf(resources[1..], name, required);
      assert forall i :: 1 <= i < |resources| ==> resources[i] == resources[1..][i - 1];
      rest
  }

  /** `offerNotEnoughCpu`. */
  function OfferNotEnoughCpu(c: FrameworkConfig, offer: Offer, cpus: real): (r: bool)
    ensures r <==> exists i :: 0 <= i < |offer.resources| && offer.resources[i].name == "cpus"
                              && offer.resources[i].value < cpus + ExecutorCpus(c)
  {
    ShortOf(offer.resources, "cpus", RequiredCpus(c, cpus))
  }

  /** `offerNotEnoughMemory`. */
  function OfferNotEnoughMemory(c: FrameworkConfig, offer: Offer, mem: int): (r: bool)
    ensures r <==> exists i :: 0 <= i < |offer.resources| && offer.resources[i].name == "mem"
                              && offer.resources[i].value < mem as real * JvmOverhead(c) + ExecutorHeap(c) as real * JvmOverhead(c)
  {
    ShortOf(offer.resources, "mem", RequiredMem(c, mem))
  }

  /** `acceptOffer`: the offer passes when no cpus entry and no mem entry falls short.
      An offer with no cpus (or no mem) entry at all passes that half of the check. */
  function AcceptOffer(c: FrameworkConfig, offer: Offer, cpus: real, mem: int): (r: bool)
    ensures r <==>
      (forall i :: 0 <= i < |offer.resources| && offer.resources[i].name == "cpus" ==>
         offer.resources[i].value >= cpus + ExecutorCpus(c))
      && (forall i :: 0 <= i < |offer.resources| && offer.resources[i].name == "mem" ==>
         offer.resources[i].value >= mem as real * JvmOverhead(c) + ExecutorHeap(c) as real * JvmOverhead(c))
  {
    var needMem := RequiredMem(c, mem);
    assert needMem == mem as real * JvmOverhead(c) + ExecutorHeap(c) as real * JvmOverhead(c);
    if OfferNotEnoughCpu(c, offer, cpus) then false
    else if OfferNotEnoughMemory(c, offer, mem) then false
    else true
  }

  /** An offer without any cpus or mem entry is always admitted. */
  lemma NoScalarsAdmitted(c: FrameworkConfig, offer: Offer, cpus: real, mem: int)
    requires forall i :: 0 <= i < |offer.resources| ==> offer.resources[i].name != "cpus" && offer.resources[i].name != "mem"
    ensures AcceptOffer(c, offer, cpus, mem)
  {
  }
}
