/** What a call of `rmw_create_client` does to the node and to the record it
    takes, stated over the specification functions `NodeAfter` and
    `RecordAfter`, and what a sequence of calls does to the node's counter. */
module ClientProperties {
  import opened Common
  import opened ObjectIds
  import opened RmwClient

  /** A call that fails one of the argument checks, cannot allocate the name
      or finds the client pool exhausted leaves the node (its counter and both
      free lists) and the record at the head of its pool as they were. */
  lemma EarlyFailureChangesNothing(v: NodeView, r: RecordView, owner: CustomNode, idGen: uint16,
                                   size: nat, p: Probe)
    requires FirstFailure(p).Some? && CheckIndex(FirstFailure(p).value) <= CheckIndex(NoMemoryNode)
    ensures NodeAfter(v, p) == v
    ensures RecordAfter(r, owner, idGen, size, p) == r
  {
  }

  /** The counter moves by one, modulo 2^16, exactly when the call gets past
      the GID-size check, whatever happens afterwards: failures before it
      leave the counter alone and failures after it do not roll it back. */
  lemma CounterMovesOnceIdDrawn(v: NodeView, p: Probe)
    requires AcquiresSlot(p) ==> v.clientMem != []
    ensures NodeAfter(v, p).idGen as int ==
              (v.idGen as int + (if Reached(FirstFailure(p), XmlGenerationFailed) then 1 else 0)) % UINT16_MODULUS
  {
  }

  /** Once a call takes the record at the head of the pool, the record
      belongs to the node, carries this implementation's identifier and has
      rewound history cursors, whichever check fails later. Its identifier
      and GID change exactly when the call gets past the GID-size check:
      the identifier is built from the counter before the increment and the
      GID holds its bytes followed by zeros. */
  lemma TakenRecordClaimed(r: RecordView, owner: CustomNode, idGen: uint16, size: nat, p: Probe)
    requires Reached(FirstFailure(p), UndefinedTypeSupport)
    requires p.gidTooSmall == (OBJECT_ID_SIZE > size)
    ensures var after := RecordAfter(r, owner, idGen, size, p);
      && after.ownerNode == owner
      && after.gidImplementationIdentifier == RMW_IMPLEMENTATION_IDENTIFIER
      && after.historyWriteIndex == 0 && after.historyReadIndex == 0
      && (if Reached(FirstFailure(p), XmlGenerationFailed)
          then after.clientId == ObjectId(idGen, REQUESTER_KIND)
               && after.gid == GidBytes(ObjectId(idGen, REQUESTER_KIND), size)
          else after.clientId == r.clientId && after.gid == r.gid)
  {
  }

  /** On success the record taken from the pool belongs to the node, carries
      this implementation's identifier, rewound history cursors, the resolved
      type-support callbacks and a GID that decodes to the requester
      identifier drawn from the counter. */
  lemma SuccessfulRecord(r: RecordView, owner: CustomNode, idGen: uint16, size: nat, p: Probe)
    requires FirstFailure(p).None? && p.gidTooSmall == (OBJECT_ID_SIZE > size)
    ensures var after := RecordAfter(r, owner, idGen, size, p);
      && after.ownerNode == owner
      && after.gidImplementationIdentifier == RMW_IMPLEMENTATION_IDENTIFIER
      && after.historyWriteIndex == 0 && after.historyReadIndex == 0
      && p.resolved.Some? && after.typeSupportCallbacks == p.resolved.value
      && after.typeSupportCallbacks.Some?
      && after.clientId == ObjectId(idGen, REQUESTER_KIND)
      && |after.gid| == size
      && DecodeObjectId(after.gid) == after.clientId
  {
  }

  /** Free lists hold each record once, and a record in the client pool is
      not also queued in the service pool. */
  predicate DisjointFreeLists(v: NodeView)
  {
    && (forall i, j :: 0 <= i < j < |v.clientMem| ==> v.clientMem[i] != v.clientMem[j])
    && (forall c :: c in v.clientMem ==> ClientSlot(c) !in v.serviceMem)
  }

  /** Where the record taken by a call ends up before `rmw_client_delete`
      runs: `rmw_create_client` does not push it back onto the client pool; it is in the service pool exactly
      when the agent rejected the requester (and then `rmw_client_delete`
      also receives it through the handle's `data`). So on the failures after
      the record is taken and before the agent answers (no type support, null
      type-support data, GID buffer too small, no XML), the record is in
      neither pool. */
  lemma TakenRecordPlacement(v: NodeView, p: Probe)
    requires AcquiresSlot(p) && v.clientMem != [] && DisjointFreeLists(v)
    ensures var after := NodeAfter(v, p);
      && v.clientMem[0] !in after.clientMem
      && (ClientSlot(v.clientMem[0]) in after.serviceMem <==> FirstFailure(p) == Some(EntityCreationFailed))
  {
  }

  /** A call keeps the free lists disjoint, up to the point where
      `rmw_client_delete` runs, so `TakenRecordPlacement` applies to every
      call of a sequence on one node. */
  lemma DisjointFreeListsPreserved(v: NodeView, p: Probe)
    requires AcquiresSlot(p) ==> v.clientMem != []
    requires DisjointFreeLists(v)
    ensures DisjointFreeLists(NodeAfter(v, p))
  {
  }

  /** A call takes at most one record out of the two free lists together: one
      exactly when it takes a record and the agent does not reject it. */
  lemma FreeSlotsAfterCall(v: NodeView, p: Probe)
    requires AcquiresSlot(p) ==> v.clientMem != []
    ensures var after := NodeAfter(v, p);
      |after.clientMem| + |after.serviceMem| ==
        |v.clientMem| + |v.serviceMem| -
        (if AcquiresSlot(p) && FirstFailure(p) != Some(EntityCreationFailed) then 1 else 0)
  {
  }

  // ---------------------------------------------------------------------
  // The counter over a sequence of calls on one node
  // ---------------------------------------------------------------------

  /** The node's counter after the calls with probes `ps`, in order. */
  function IdGenAfterCalls(start: uint16, ps: seq<Probe>): uint16
  {
    if ps == [] then start else IdGenAfter(IdGenAfterCalls(start, ps[..|ps| - 1]), ps[|ps| - 1])
  }

  /** How many of the calls `ps` drew an identifier. */
  function DrawCount(ps: seq<Probe>): nat
  {
    if ps == [] then 0 else DrawCount(ps[..|ps| - 1]) + (if DrawsId(ps[|ps| - 1]) then 1 else 0)
  }

  /** The counter moves once per call that drew an identifier. */
  lemma {:induction false} IdGenCountsDraws(start: uint16, ps: seq<Probe>)
    ensures IdGenAfterCalls(start, ps) == CounterAfter(start, DrawCount(ps))
  {
    if ps != [] {
      IdGenCountsDraws(start, ps[..|ps| - 1]);
    }
  }

  /** Earlier prefixes of a sequence of calls drew no more identifiers. */
  lemma {:induction false} DrawCountMonotone(ps: seq<Probe>, k: nat, l: nat)
    requires k <= l <= |ps|
    ensures DrawCount(ps[..k]) <= DrawCount(ps[..l])
  {
    if k < l {
      DrawCountMonotone(ps, k, l - 1);
      assert ps[..l][..l - 1] == ps[..l - 1];
    }
  }

  /** Two calls on one node that both draw an identifier give their clients
      different identifiers, as long as the node draws at most 2^16
      identifiers in all; `CounterPeriodic` shows the bound is needed. */
  lemma ClientIdsDistinct(start: uint16, ps: seq<Probe>, i: nat, j: nat)
    requires i < j < |ps| && DrawsId(ps[i]) && DrawsId(ps[j])
    requires DrawCount(ps) <= UINT16_MODULUS
    ensures ObjectId(IdGenAfterCalls(start, ps[..i]), REQUESTER_KIND) !=
            ObjectId(IdGenAfterCalls(start, ps[..j]), REQUESTER_KIND)
  {
    IdGenCountsDraws(start, ps[..i]);
    IdGenCountsDraws(start, ps[..j]);
    assert ps[..i + 1][..i] == ps[..i];
    assert ps[..j + 1][..j] == ps[..j];
    DrawCountMonotone(ps, i + 1, j);
    DrawCountMonotone(ps, j + 1, |ps|);
    assert ps[..|ps|] == ps;
    DrawnIdsDistinct(start, DrawCount(ps[..i]), DrawCount(ps[..j]), REQUESTER_KIND);
  }
}
