/** `rmw_create_client` and `rmw_destroy_client`: creating a service client on
    a node whose entities live in a Micro XRCE-DDS session, and destroying it. */
module RmwClient {
  import opened Common
  import opened CString
  import opened ObjectIds
  import opened TypeSupport

  /** What `rmw_get_implementation_identifier` returns. */
  const RMW_IMPLEMENTATION_IDENTIFIER: string := "rmw_microxrcedds"

  /** `RMW_RET_OK`. */
  const RMW_RET_OK: int := 0

  // ---------------------------------------------------------------------
  // The checks of rmw_create_client and the message each one leaves
  // ---------------------------------------------------------------------

  /** The messages `rmw_create_client` can leave in the last-error slot. */
  datatype ErrorMessage =
    | NodeNull
    | TypeSupportNull
    | ForeignNode
    | ServiceNameInvalid
    | QosNull
    | NameAllocationFailed
    | NoMemoryNode
    | UndefinedTypeSupport
    | TypeSupportDataNull
    | GidStorageTooSmall
    | XmlGenerationFailed
    | EntityCreationFailed
  {
    /** The text handed to `RMW_SET_ERROR_MSG`. */
    function Text(): string
    {
      match this
      case NodeNull => "node handle is null"
      case TypeSupportNull => "type support is null"
      case ForeignNode => "node handle not from this implementation"
      case ServiceNameInvalid => "service name is null or empty string"
      case QosNull => "qos_profile is null"
      case NameAllocationFailed => "failed to allocate memory"
      case NoMemoryNode => "Not available memory node"
      case UndefinedTypeSupport => "Undefined type support"
      case TypeSupportDataNull => "type support data is NULL"
      case GidStorageTooSmall => "Not enough memory for impl ids"
      case XmlGenerationFailed => "failed to generate xml request for client creation"
      case EntityCreationFailed => "Issues creating Micro XRCE-DDS entities"
    }
  }

  /** The order in which `rmw_create_client` meets its failure conditions. */
  const CHECK_ORDER: seq<ErrorMessage> := [
    NodeNull, TypeSupportNull, ForeignNode, ServiceNameInvalid, QosNull,
    NameAllocationFailed, NoMemoryNode, UndefinedTypeSupport, TypeSupportDataNull,
    GidStorageTooSmall, XmlGenerationFailed, EntityCreationFailed]

  /** The position of a check in `CHECK_ORDER` (see `CheckIndexInOrder`). */
  function CheckIndex(e: ErrorMessage): nat
  {
    match e
    case NodeNull => 0
    case TypeSupportNull => 1
    case ForeignNode => 2
    case ServiceNameInvalid => 3
    case QosNull => 4
    case NameAllocationFailed => 5
    case NoMemoryNode => 6
    case UndefinedTypeSupport => 7
    case TypeSupportDataNull => 8
    case GidStorageTooSmall => 9
    case XmlGenerationFailed => 10
    case EntityCreationFailed => 11
  }

  /** `CheckIndex` gives each check's position in `CHECK_ORDER`. */
  lemma CheckIndexInOrder(e: ErrorMessage)
    ensures CheckIndex(e) < |CHECK_ORDER| && CHECK_ORDER[CheckIndex(e)] == e
  {
  }

  /** The call got as far as the check that reports `e`: it failed there or
      at a later check, or it succeeded. */
  predicate Reached(error: Option<ErrorMessage>, e: ErrorMessage)
  {
    error.None? || CheckIndex(error.value) >= CheckIndex(e)
  }

  /** The answer of every check of `rmw_create_client`, as things stand when
      it is called. `resolved` is the type-support handle found (its value
      being the handle's `data`). */
  datatype Probe = Probe(
    nodeNull: bool,
    typeSupportNull: bool,
    foreignNode: bool,
    nameNullOrEmpty: bool,
    qosNull: bool,
    nameAllocationFails: bool,
    poolEmpty: bool,
    resolved: Option<Option<ServiceCallbacks>>,
    gidTooSmall: bool,
    xmlFails: bool,
    statusFails: bool)

  /** Whether the check that reports `e` fails, taken on its own. */
  predicate Fails(p: Probe, e: ErrorMessage)
  {
    match e
    case NodeNull => p.nodeNull
    case TypeSupportNull => p.typeSupportNull
    case ForeignNode => p.foreignNode
    case ServiceNameInvalid => p.nameNullOrEmpty
    case QosNull => p.qosNull
    case NameAllocationFailed => p.nameAllocationFails
    case NoMemoryNode => p.poolEmpty
    case UndefinedTypeSupport => p.resolved.None?
    case TypeSupportDataNull => p.resolved == Some(None)
    case GidStorageTooSmall => p.gidTooSmall
    case XmlGenerationFailed => p.xmlFails
    case EntityCreationFailed => p.statusFails
  }

  /** The message `rmw_create_client` leaves, following its branches. */
  function FirstFailure(p: Probe): Option<ErrorMessage>
  {
    if p.nodeNull then Some(NodeNull)
    else if p.typeSupportNull then Some(TypeSupportNull)
    else if p.foreignNode then Some(ForeignNode)
    else if p.nameNullOrEmpty then Some(ServiceNameInvalid)
    else if p.qosNull then Some(QosNull)
    else if p.nameAllocationFails then Some(NameAllocationFailed)
    else NodeStageFailure(p)
  }

  /** The message left by the part of `rmw_create_client` that works on the
      node's pools, once the handle and its name are allocated. */
  function NodeStageFailure(p: Probe): Option<ErrorMessage>
  {
    if p.poolEmpty then Some(NoMemoryNode)
    else if p.resolved.None? then Some(UndefinedTypeSupport)
    else if p.resolved.value.None? then Some(TypeSupportDataNull)
    else if p.gidTooSmall then Some(GidStorageTooSmall)
    else if p.xmlFails then Some(XmlGenerationFailed)
    else if p.statusFails then Some(EntityCreationFailed)
    else None
  }

  /** The message reported is that of the earliest failing check in
      `CHECK_ORDER`, whatever later checks would have said. */
  lemma FirstFailureIsEarliest(p: Probe, e: ErrorMessage)
    ensures FirstFailure(p) == Some(e) <==>
              Fails(p, e) && forall j :: 0 <= j < CheckIndex(e) ==> !Fails(p, CHECK_ORDER[j])
  {
    CheckIndexInOrder(e);
    var k := CheckIndex(e);
    if Fails(p, e) && forall j :: 0 <= j < k ==> !Fails(p, CHECK_ORDER[j]) {
      assert k > 0 ==> !Fails(p, CHECK_ORDER[0]);
      assert k > 1 ==> !Fails(p, CHECK_ORDER[1]);
      assert k > 2 ==> !Fails(p, CHECK_ORDER[2]);
      assert k > 3 ==> !Fails(p, CHECK_ORDER[3]);
      assert k > 4 ==> !Fails(p, CHECK_ORDER[4]);
      assert k > 5 ==> !Fails(p, CHECK_ORDER[5]);
      assert k > 6 ==> !Fails(p, CHECK_ORDER[6]);
      assert k > 7 ==> !Fails(p, CHECK_ORDER[7]);
      assert k > 8 ==> !Fails(p, CHECK_ORDER[8]);
      assert k > 9 ==> !Fails(p, CHECK_ORDER[9]);
      assert k > 10 ==> !Fails(p, CHECK_ORDER[10]);
    }
  }

  /** The call succeeds exactly when no check fails. */
  lemma SucceedsIffNoCheckFails(p: Probe)
    ensures FirstFailure(p).None? <==> forall e :: !Fails(p, e)
  {
    if FirstFailure(p).None? {
      forall e ensures !Fails(p, e) {
        match e
        case TypeSupportDataNull => assert p.resolved.Some?;
        case _ =>
      }
    } else {
      assert Fails(p, FirstFailure(p).value);
    }
  }

  /** The five argument checks pass, so the client handle is allocated. */
  predicate ArgumentsValid(p: Probe)
  {
    !p.nodeNull && !p.typeSupportNull && !p.foreignNode && !p.nameNullOrEmpty && !p.qosNull
  }

  /** The call gets as far as the node's pools: the handle and its name are
      allocated. */
  predicate ReachesNode(p: Probe)
  {
    ArgumentsValid(p) && !p.nameAllocationFails
  }

  /** A record is taken from the node's client pool. */
  predicate AcquiresSlot(p: Probe)
  {
    ReachesNode(p) && !p.poolEmpty
  }

  /** The record's type-support callbacks are overwritten. */
  predicate SetsCallbacks(p: Probe)
  {
    AcquiresSlot(p) && p.resolved.Some?
  }

  /** An identifier is drawn from the node's counter and written to the GID. */
  predicate DrawsId(p: Probe)
  {
    SetsCallbacks(p) && p.resolved.value.Some? && !p.gidTooSmall
  }

  /** The record is attached to the handle. */
  predicate AttachesRecord(p: Probe)
  {
    DrawsId(p) && !p.xmlFails
  }

  /** The agent rejects the requester and the record is put back (into the
      service pool). */
  predicate ReturnsSlot(p: Probe)
  {
    AttachesRecord(p) && p.statusFails
  }

  /** Each step of the call happens exactly when every check before it passes. */
  lemma StagesFollowChecks(p: Probe)
    ensures ArgumentsValid(p) <==> Reached(FirstFailure(p), NameAllocationFailed)
    ensures ReachesNode(p) <==> Reached(FirstFailure(p), NoMemoryNode)
    ensures AcquiresSlot(p) <==> Reached(FirstFailure(p), UndefinedTypeSupport)
    ensures SetsCallbacks(p) <==> Reached(FirstFailure(p), TypeSupportDataNull)
    ensures DrawsId(p) <==> Reached(FirstFailure(p), XmlGenerationFailed)
    ensures AttachesRecord(p) <==> Reached(FirstFailure(p), EntityCreationFailed)
    ensures ReturnsSlot(p) <==> FirstFailure(p) == Some(EntityCreationFailed)
  {
  }

  // ---------------------------------------------------------------------
  // State: the node's pools and counter, the records in the pool's slots
  // ---------------------------------------------------------------------

  /** A client record in a slot of the node's client pool (`CustomClient`).
      Its fields keep whatever the slot's previous user left until
      `rmw_create_client` overwrites them. */
  class CustomClient {
    var ownerNode: CustomNode?
    var gidImplementationIdentifier: string
    /** The GID buffer, `RMW_GID_STORAGE_SIZE` bytes. */
    const gidData: array<byte>
    var historyWriteIndex: int
    var historyReadIndex: int
    var typeSupportCallbacks: Option<ServiceCallbacks>
    var clientId: ObjectId

    /** The record's fields as a value. */
    function View(): RecordView
      reads this, gidData
    {
      RecordView(ownerNode, gidImplementationIdentifier, historyWriteIndex, historyReadIndex,
                 typeSupportCallbacks, clientId, gidData[..])
    }

    /** Lines 71-75: claims the record for `owner` and rewinds its history cursors. */
    method Claim(owner: CustomNode)
      modifies this
      ensures View() == Claimed(old(View()), owner)
    {
      ownerNode := owner;
      gidImplementationIdentifier := RMW_IMPLEMENTATION_IDENTIFIER;
      historyWriteIndex := 0;
      historyReadIndex := 0;
    }

    /** Lines 112-114: zeroes the GID buffer and copies `id` to its start. */
    method StoreGid(id: ObjectId)
      requires OBJECT_ID_SIZE <= gidData.Length
      modifies gidData
      ensures gidData[..] == GidBytes(id, gidData.Length)
    {
      forall i | 0 <= i < gidData.Length {
        gidData[i] := 0;
      }
      var idBytes := ObjectIdBytes(id);
      forall i | 0 <= i < OBJECT_ID_SIZE {
        gidData[i] := idBytes[i];
      }
      assert gidData[..] == GidBytes(id, gidData.Length);
    }

    /** Lines 70-114, on a record just taken from `owner`'s client pool: claim
        it, resolve the type support, check the GID buffer, draw the record's
        identifier and fill its GID. Returns the message of the check that
        fails, or None; `p` is the probe of the whole call. */
    method Prepare(owner: CustomNode, typeSupport: ServiceTypeSupport, ghost p: Probe)
      returns (error: Option<ErrorMessage>)
      requires gidData.Length == owner.gidStorageSize
      requires AcquiresSlot(p) && p.resolved == Resolve(typeSupport)
      requires p.gidTooSmall == (OBJECT_ID_SIZE > owner.gidStorageSize)
      modifies this, gidData, owner`idGen
      ensures error == (if DrawsId(p) then None else NodeStageFailure(p))
      ensures owner.idGen == (if DrawsId(p) then NextCounter(old(owner.idGen)) else old(owner.idGen))
      ensures View() == RecordAfter(old(View()), owner, old(owner.idGen), owner.gidStorageSize, p)
    {
      Claim(owner);
      var typeSupportXrce := Resolve(typeSupport);
      if typeSupportXrce.None? {
        return Some(UndefinedTypeSupport);  // goto fail
      }
      typeSupportCallbacks := typeSupportXrce.value;
      if typeSupportCallbacks.None? {
        return Some(TypeSupportDataNull);  // goto fail
      } else if OBJECT_ID_SIZE > owner.gidStorageSize {
        return Some(GidStorageTooSmall);  // goto fail
      }
      clientId := owner.DrawObjectId(REQUESTER_KIND);
      StoreGid(clientId);
      error := None;
    }
  }

  /** The fields of a client record, as a value. */
  datatype RecordView = RecordView(
    ownerNode: CustomNode?,
    gidImplementationIdentifier: string,
    historyWriteIndex: int,
    historyReadIndex: int,
    typeSupportCallbacks: Option<ServiceCallbacks>,
    clientId: ObjectId,
    gid: seq<byte>)

  /** An entry of a pool's free list: a client record or a service record. */
  datatype PoolItem = ClientSlot(record: CustomClient) | ServiceSlot(index: nat)

  /** The node's private state (`CustomNode`): the identifier counter shared by
      all the node's entities and the free lists of its client and service
      pools. */
  class CustomNode {
    /** `RMW_GID_STORAGE_SIZE`, the size of every record's GID buffer. */
    const gidStorageSize: nat
    var idGen: uint16
    var clientMem: seq<CustomClient>
    var serviceMem: seq<PoolItem>

    /** Every free client record has a GID buffer of the configured size. */
    ghost predicate Valid()
      reads this
    {
      forall c :: c in clientMem ==> c.gidData.Length == gidStorageSize
    }

    /** The node's counter and free lists as a value. */
    function View(): NodeView
      reads this
    {
      NodeView(idGen, clientMem, serviceMem)
    }

    /** `get_memory` on the client pool: the head of the free list, or null
        when the pool is exhausted. */
    method TakeClientSlot() returns (c: CustomClient?)
      requires Valid()
      modifies this
      ensures Valid()
      ensures c == null <==> old(clientMem) == []
      ensures c != null ==> c == old(clientMem[0]) && c.gidData.Length == gidStorageSize
      ensures View() == old(View()).(clientMem := if c == null then old(clientMem) else old(clientMem)[1..])
    {
      if clientMem == [] {
        c := null;
      } else {
        c := clientMem[0];
        clientMem := clientMem[1..];
      }
    }

    /** `uxr_object_id(id_gen++, kind)`: an identifier built from the counter
        before it is incremented. */
    method DrawObjectId(kind: byte) returns (id: ObjectId)
      modifies this`idGen
      ensures id == ObjectId(old(idGen), kind)
      ensures View() == old(View()).(idGen := NextCounter(old(idGen)))
    {
      id := ObjectId(idGen, kind);
      idGen := NextCounter(idGen);
    }

    /** `put_memory` on the service pool: `item` goes to the head of its free list. */
    method PutServiceSlot(item: PoolItem)
      modifies this
      ensures View() == old(View()).(serviceMem := [item] + old(serviceMem))
    {
      serviceMem := [item] + serviceMem;
    }
  }

  /** The node's counter and free lists, as a value. */
  datatype NodeView = NodeView(idGen: uint16, clientMem: seq<CustomClient>, serviceMem: seq<PoolItem>)

  /** The node handle of the middleware API (`rmw_node_t`). */
  datatype RmwNode = RmwNode(implementationIdentifier: string, data: CustomNode)

  /** The client handle of the middleware API (`rmw_client_t`). */
  class RmwClientHandle {
    var data: CustomClient?
    var implementationIdentifier: string
    var serviceName: Option<seq<char>>
  }

  /** A quality-of-service profile; only whether it is null matters here. */
  datatype QosProfile = QosProfile(profile: nat)

  /** The answers of the collaborators this model does not describe: whether
      `rmw_allocate` found memory for the name, whether `build_service_xml`
      rendered the profile, and whether the agent acknowledged the creation
      within the session wait. */
  datatype Collaborators = Collaborators(nameAllocated: bool, xmlBuilt: bool, statusOk: bool)

  // ---------------------------------------------------------------------
  // What a call leaves behind, as functions of the state before it
  // ---------------------------------------------------------------------

  /** A record just claimed for `owner` (lines 71-75). */
  function Claimed(r: RecordView, owner: CustomNode): RecordView
  {
    r.(ownerNode := owner, gidImplementationIdentifier := RMW_IMPLEMENTATION_IDENTIFIER,
       historyWriteIndex := 0, historyReadIndex := 0)
  }

  /** The node's counter after a call with probe `p`, from `idGen`. */
  function IdGenAfter(idGen: uint16, p: Probe): uint16
  {
    if DrawsId(p) then NextCounter(idGen) else idGen
  }

  /** The node's counter and free lists after a call with probe `p`, before
      `rmw_client_delete` runs on the failure path. */
  function NodeAfter(before: NodeView, p: Probe): NodeView
    requires AcquiresSlot(p) ==> before.clientMem != []
  {
    NodeView(
      idGen := IdGenAfter(before.idGen, p),
      clientMem := if AcquiresSlot(p) then before.clientMem[1..] else before.clientMem,
      serviceMem := if ReturnsSlot(p) then [ClientSlot(before.clientMem[0])] + before.serviceMem
                    else before.serviceMem)
  }

  /** The record at the head of the client pool after a call with probe `p`
      on `owner`, whose counter held `idGen` and whose GID buffers have
      `gidStorageSize` bytes. */
  function RecordAfter(before: RecordView, owner: CustomNode, idGen: uint16, gidStorageSize: nat,
                       p: Probe): RecordView
    requires DrawsId(p) ==> OBJECT_ID_SIZE <= gidStorageSize
  {
    if !AcquiresSlot(p) then before
    else
      var claimed := Claimed(before, owner);
      var typed := if SetsCallbacks(p) then claimed.(typeSupportCallbacks := p.resolved.value) else claimed;
      if DrawsId(p) then
        var id := ObjectId(idGen, REQUESTER_KIND);
        typed.(clientId := id, gid := GidBytes(id, gidStorageSize))
      else typed
  }

  /** The answers of all checks for one call, read from its arguments, the
      node's state and the collaborators. */
  ghost function ProbeOf(node: Option<RmwNode>, typeSupport: Option<ServiceTypeSupport>,
                         serviceName: Option<seq<char>>, qos: Option<QosProfile>,
                         env: Collaborators): Probe
    requires serviceName.Some? ==> NUL in serviceName.value
    reads if node.Some? then {node.value.data} else {}
  {
    Probe(
      nodeNull := node.None?,
      typeSupportNull := typeSupport.None?,
      foreignNode := node.Some? && node.value.implementationIdentifier != RMW_IMPLEMENTATION_IDENTIFIER,
      nameNullOrEmpty := serviceName.None? || StrLen(serviceName.value) == 0,
      qosNull := qos.None?,
      nameAllocationFails := !env.nameAllocated,
      poolEmpty := node.Some? && node.value.data.clientMem == [],
      resolved := if typeSupport.Some? then Resolve(typeSupport.value) else None,
      gidTooSmall := node.Some? && OBJECT_ID_SIZE > node.value.data.gidStorageSize,
      xmlFails := !env.xmlBuilt,
      statusFails := !env.statusOk)
  }

  // ---------------------------------------------------------------------
  // The operations
  // ---------------------------------------------------------------------

  /** `rmw_create_client`. Returns the new client handle, or null with the
      message left in the last-error slot; `deletedHandle` is the handle the
      failure path passes to `rmw_client_delete` (null when none was
      allocated). `p` holds the answers of the checks as the call starts; the
      node's counter and pools, and the record at the head of the client
      pool, end as `NodeAfter` and `RecordAfter` say; what `rmw_client_delete`
      then does to `deletedHandle` is not modelled. */
  method CreateClient(node: Option<RmwNode>, typeSupport: Option<ServiceTypeSupport>,
                      serviceName: Option<seq<char>>, qos: Option<QosProfile>,
                      env: Collaborators, ghost p: Probe)
    returns (client: RmwClientHandle?, error: Option<ErrorMessage>, deletedHandle: RmwClientHandle?)
    requires serviceName.Some? ==> NUL in serviceName.value
    requires node.Some? ==> node.value.data.Valid()
    requires p == ProbeOf(node, typeSupport, serviceName, qos, env)
    modifies if node.Some? then {node.value.data} else {}
    modifies if node.Some? && node.value.data.clientMem != [] then {node.value.data.clientMem[0]} else {}
    modifies if node.Some? && node.value.data.clientMem != [] then {node.value.data.clientMem[0].gidData} else {}
    ensures error == FirstFailure(p)
    // the handle: allocated once the arguments are valid, returned only on success
    ensures client != null <==> error.None?
    ensures client != null ==>
              && fresh(client)
              && client.data == old(node.value.data.clientMem[0])
              && client.implementationIdentifier == RMW_IMPLEMENTATION_IDENTIFIER
              && client.serviceName == Some(CopyCString(serviceName.value))
    ensures deletedHandle != null <==> error.Some? && ArgumentsValid(p)
    ensures deletedHandle != null ==>
              && fresh(deletedHandle)
              && deletedHandle.implementationIdentifier == RMW_IMPLEMENTATION_IDENTIFIER
              && deletedHandle.serviceName ==
                   (if p.nameAllocationFails then None else Some(CopyCString(serviceName.value)))
              && deletedHandle.data == (if ReturnsSlot(p) then old(node.value.data.clientMem[0]) else null)
    // the node and the record at the head of its client pool
    ensures node.Some? ==> node.value.data.Valid()
    ensures node.Some? ==> node.value.data.View() == NodeAfter(old(node.value.data.View()), p)
    ensures node.Some? && old(node.value.data.clientMem) != [] ==>
              var c := old(node.value.data.clientMem[0]);
              c.View() == RecordAfter(old(c.View()), node.value.data, old(node.value.data.idGen),
                                      node.value.data.gidStorageSize, p)
  {
    client, error, deletedHandle := null, None, null;
    if node.None? {
      error := Some(NodeNull);
    } else if typeSupport.None? {
      error := Some(TypeSupportNull);
    } else if node.value.implementationIdentifier != RMW_IMPLEMENTATION_IDENTIFIER {
      error := Some(ForeignNode);
    } else if serviceName.None? || StrLen(serviceName.value) == 0 {
      error := Some(ServiceNameInvalid);
    } else if qos.None? {
      error := Some(QosNull);
    } else {
      client, error, deletedHandle := NewClient(node.value.data, typeSupport.value, serviceName.value, env, p);
    }
  }

  /** Lines 51-61 and 144-160 of `rmw_create_client`, once the arguments are
      valid: allocate the handle and its name, attach a record from
      `customNode`'s pool, and return the handle or pass it to
      `rmw_client_delete`. */
  method NewClient(customNode: CustomNode, typeSupport: ServiceTypeSupport, serviceName: seq<char>,
                   env: Collaborators, ghost p: Probe)
    returns (client: RmwClientHandle?, error: Option<ErrorMessage>, deletedHandle: RmwClientHandle?)
    requires NUL in serviceName
    requires customNode.Valid() && ArgumentsValid(p)
    requires p.nameAllocationFails == !env.nameAllocated
    requires p.poolEmpty == (customNode.clientMem == [])
    requires p.resolved == Resolve(typeSupport)
    requires p.gidTooSmall == (OBJECT_ID_SIZE > customNode.gidStorageSize)
    requires p.xmlFails == !env.xmlBuilt && p.statusFails == !env.statusOk
    modifies customNode
    modifies if customNode.clientMem != [] then {customNode.clientMem[0]} else {}
    modifies if customNode.clientMem != [] then {customNode.clientMem[0].gidData} else {}
    ensures error == FirstFailure(p)
    ensures client != null <==> error.None?
    ensures client != null ==>
              && fresh(client)
              && client.data == old(customNode.clientMem[0])
              && client.implementationIdentifier == RMW_IMPLEMENTATION_IDENTIFIER
              && client.serviceName == Some(CopyCString(serviceName))
    ensures deletedHandle != null <==> error.Some?
    ensures deletedHandle != null ==>
              && fresh(deletedHandle)
              && deletedHandle.implementationIdentifier == RMW_IMPLEMENTATION_IDENTIFIER
              && deletedHandle.serviceName ==
                   (if p.nameAllocationFails then None else Some(CopyCString(serviceName)))
              && deletedHandle.data == (if ReturnsSlot(p) then old(customNode.clientMem[0]) else null)
    ensures customNode.Valid()
    ensures customNode.View() == NodeAfter(old(customNode.View()), p)
    ensures old(customNode.clientMem) != [] ==>
              var c := old(customNode.clientMem[0]);
              c.View() == RecordAfter(old(c.View()), customNode, old(customNode.idGen),
                                      customNode.gidStorageSize, p)
  {
    client, deletedHandle := null, null;
    var handle := new RmwClientHandle;
    handle.data := null;
    handle.implementationIdentifier := RMW_IMPLEMENTATION_IDENTIFIER;
    if !env.nameAllocated {
      handle.serviceName := None;
      error := Some(NameAllocationFailed);  // goto fail
    } else {
      handle.serviceName := Some(CopyCString(serviceName));
      error := AttachRecord(handle, customNode, typeSupport, env, p);
    }
    if error.Some? {
      // fail: the handle goes to rmw_client_delete and null is returned
      deletedHandle := handle;
    } else {
      client := handle;
    }
  }

  /** Lines 63-144 of `rmw_create_client`: with the handle allocated and the
      name copied, take a record from the node's client pool, prepare it,
      render the XML request and register the requester with the agent.
      `p` is the probe of the whole call; its node-side answers are those of
      `customNode`, `typeSupport` and `env`. */
  method AttachRecord(handle: RmwClientHandle, customNode: CustomNode, typeSupport: ServiceTypeSupport,
                      env: Collaborators, ghost p: Probe)
    returns (error: Option<ErrorMessage>)
    requires customNode.Valid() && ReachesNode(p)
    requires p.poolEmpty == (customNode.clientMem == [])
    requires p.resolved == Resolve(typeSupport)
    requires p.gidTooSmall == (OBJECT_ID_SIZE > customNode.gidStorageSize)
    requires p.xmlFails == !env.xmlBuilt && p.statusFails == !env.statusOk
    modifies handle`data, customNode
    modifies if customNode.clientMem != [] then {customNode.clientMem[0]} else {}
    modifies if customNode.clientMem != [] then {customNode.clientMem[0].gidData} else {}
    ensures error == NodeStageFailure(p)
    ensures handle.data == (if AttachesRecord(p) then old(customNode.clientMem[0]) else old(handle.data))
    ensures customNode.Valid()
    ensures customNode.View() == NodeAfter(old(customNode.View()), p)
    ensures old(customNode.clientMem) != [] ==>
              var c := old(customNode.clientMem[0]);
              c.View() == RecordAfter(old(c.View()), customNode, old(customNode.idGen),
                                      customNode.gidStorageSize, p)
  {
    var customClient := customNode.TakeClientSlot();
    if customClient == null {
      return Some(NoMemoryNode);  // goto fail
    }
    error := customClient.Prepare(customNode, typeSupport, p);
    if error.None? {
      if !env.xmlBuilt {
        error := Some(XmlGenerationFailed);  // goto fail
      } else {
        handle.data := customClient;
        if !env.statusOk {
          error := Some(EntityCreationFailed);
          customNode.PutServiceSlot(ClientSlot(customClient));  // then goto fail
        }
      }
    }
  }

  /** `rmw_destroy_client`: the node argument is ignored, `client` is handed
      to `rmw_client_delete` (returned as `deletedHandle`, as in
      `CreateClient`), and the result is always `RMW_RET_OK`. */
  method DestroyClient(node: Option<RmwNode>, client: RmwClientHandle?)
    returns (ret: int, deletedHandle: RmwClientHandle?)
    ensures ret == RMW_RET_OK && deletedHandle == client
  {
    deletedHandle := client;
    ret := RMW_RET_OK;
  }
}
