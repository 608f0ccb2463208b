# Service-client creation in rmw_microxrcedds

This project models how the Micro XRCE-DDS middleware layer of ROS 2 creates and destroys a service client: `rmw_create_client` and `rmw_destroy_client` in `rmw_microxrcedds_c/src/rmw_client.c`. It proves properties of that model in Dafny.

`rmw_create_client` works in this order:
1. It checks its arguments in a fixed order.
2. It allocates a client handle and copies the service name.
3. It takes a client record from the node's fixed pool. A pool is a free list.
4. It claims the record, resolves the service type support and checks that an object identifier fits the GID buffer.
5. It draws the record's identifier from the node's counter with a post-increment, and writes the identifier into the zeroed GID buffer.
6. It renders the XML creation request and waits for the agent's status.

Every failure leaves one error message. A failed argument check returns NULL at line 155. Every later failure goes to the `fail` label, where the handle is passed to `rmw_client_delete` and NULL is returned.

The model follows the code as written, including the behaviour an all-or-nothing design would not have:
- The counter is not rolled back when a later step fails.
- When the agent rejects the requester, the record is pushed onto the node's *service* pool, not the client pool. It also stays attached to the handle that goes to `rmw_client_delete`.
- Failures after the record is taken and before the status wait never return it to any pool.
- `rmw_client->data` is set only once the XML request is built.

Modules:
- `Common`: `Option`, `byte` and `uint16`.
- `CString`: `strlen` and the terminator-inclusive copy of a C string.
- `ObjectIds`: the object identifier, its byte layout, and the GID buffer filled by `memset` and `memcpy`. It also covers the node's counter, taken to be 16 bits wide, with its wrap-around made explicit.
- `TypeSupport`: the lookup of the Micro XRCE-DDS type support. The C identifier is tried first, then the C++ one.
- `RmwClient`:
  - the node state as a class `CustomNode`, with the counter `idGen` and the free lists `clientMem` and `serviceMem`;
  - the pool record as a class `CustomClient`, with its GID buffer as an `array<byte>`;
  - the handle (`rmw_client_t`) as a class `RmwClientHandle`;
  - the operations as methods.

  `rmw_create_client` is split along its steps:
  - `CreateClient` covers the argument checks.
  - `NewClient` covers the handle, the name and the `fail` path.
  - `AttachRecord` covers the pool, the XML request and the status wait.
  - `CustomClient.Prepare` covers claiming the record, the type support, the GID-size check, the identifier and the GID.

  The answer of every check for one call is gathered in a `Probe`. `FirstFailure` gives the message the call leaves. `NodeAfter` and `RecordAfter` give the node's counter and free lists, and the record at the head of the client pool, after the call. The methods' postconditions tie the new state to these functions.
- `ClientProperties`: lemmas about those functions, including what a sequence of calls does to the counter.

The collaborators whose code is not part of this model are inputs in `Collaborators`:
- whether `rmw_allocate` found memory for the name;
- whether `build_service_xml` rendered the request;
- whether `uxr_run_session_until_all_status` reported success.

## Model

| member | source | states |
|---|---|---|
| CString.StrLen | rmw_microxrcedds_c/src/rmw_client.c:45 | `strlen` is the index of the first terminator: that position holds the terminator and no earlier one does |
| CString.CopyCString | rmw_microxrcedds_c/src/rmw_client.c:56-61 | the copied name is the input up to and including its terminator, so it has the same `strlen` and ends with the terminator |
| ObjectIds.ObjectIdRoundTrip | rmw_microxrcedds_c/src/rmw_client.c:113-114 | the bytes copied out of an object identifier decode back to that identifier |
| ObjectIds.GidBytes | rmw_microxrcedds_c/src/rmw_client.c:112-114 | the GID buffer holds the identifier's bytes at its start and zero in every remaining byte, and keeps its size |
| ObjectIds.GidRoundTrip | rmw_microxrcedds_c/src/rmw_client.c:112-114 | the identifier can be read back from the GID buffer |
| ObjectIds.GidInjective | rmw_microxrcedds_c/src/rmw_client.c:110-114 | two GIDs are equal exactly when their identifiers are equal |
| ObjectIds.CounterAfterIsOffset | rmw_microxrcedds_c/src/rmw_client.c:110 | after k post-increments the 16-bit counter holds its start plus k, modulo 2^16 |
| ObjectIds.DrawnIdsDistinct | rmw_microxrcedds_c/src/rmw_client.c:110 | identifiers drawn at different positions, fewer than 2^16 apart, are different |
| ObjectIds.CounterPeriodic | rmw_microxrcedds_c/src/rmw_client.c:110 | the identifier drawn 2^16 draws later is the same again, so uniqueness ends at wrap-around |
| TypeSupport.Resolve | rmw_microxrcedds_c/src/rmw_client.c:77-91 | no handle exactly when neither the C nor the C++ identifier is provided; the C handle when it exists, the C++ handle otherwise |
| RmwClient.FirstFailureIsEarliest | rmw_microxrcedds_c/src/rmw_client.c:39-143 | the message left is the message of a failing check exactly when every check before it in the code's order passes |
| RmwClient.SucceedsIffNoCheckFails | rmw_microxrcedds_c/src/rmw_client.c:39-155 | the call returns a client exactly when no check fails |
| RmwClient.StagesFollowChecks | rmw_microxrcedds_c/src/rmw_client.c:51-143 | each step happens exactly when every check before it passes: the handle is allocated, a record is taken, the callbacks are set, an identifier is drawn, the record is attached, and the record goes to the service pool on rejection |
| RmwClient.CustomClient.Claim | rmw_microxrcedds_c/src/rmw_client.c:70-75 | the record now belongs to the node, carries this implementation's identifier and has both history cursors at zero; nothing else changes |
| RmwClient.CustomClient.StoreGid | rmw_microxrcedds_c/src/rmw_client.c:112-114 | after the `memset` and `memcpy` the buffer equals `GidBytes` of the identifier |
| RmwClient.CustomClient.Prepare | rmw_microxrcedds_c/src/rmw_client.c:70-114 | returns the message of the type-support or GID-size check that fails, or none. It draws an identifier and advances the counter exactly when both pass. The record ends as `RecordAfter` says |
| RmwClient.CustomNode.TakeClientSlot | rmw_microxrcedds_c/src/rmw_client.c:64-68 | null exactly when the client pool is empty; otherwise the head of the free list, which is removed from it |
| RmwClient.CustomNode.DrawObjectId | rmw_microxrcedds_c/src/rmw_client.c:110 | the identifier is built from the counter before the increment, and the counter wraps modulo 2^16 |
| RmwClient.CustomNode.PutServiceSlot | rmw_microxrcedds_c/src/rmw_client.c:142 | the record is pushed onto the service pool's free list; the client pool and the counter are unchanged |
| RmwClient.CreateClient | rmw_microxrcedds_c/src/rmw_client.c:30-161 | the message left is `FirstFailure` of the call's checks. A client comes back exactly on success, with the record, this implementation's identifier and a terminator-inclusive copy of the name. A handle goes to `rmw_client_delete` exactly when the arguments were valid and the call failed; its `data` is set only when the agent rejected the requester. The node and record end as `NodeAfter` and `RecordAfter` say |
| RmwClient.NewClient | rmw_microxrcedds_c/src/rmw_client.c:51-160 | with valid arguments, the name-allocation failure and the pool-stage outcome decide the message and the returned or deleted handle, as in `CreateClient` |
| RmwClient.AttachRecord | rmw_microxrcedds_c/src/rmw_client.c:63-144 | the message is that of the first failing pool-stage check. The handle's `data` is the record exactly when the XML request was built. The node and record end as `NodeAfter` and `RecordAfter` say |
| RmwClient.DestroyClient | rmw_microxrcedds_c/src/rmw_client.c:163-174 | the node argument is ignored, the client handle is the one passed to `rmw_client_delete`, and the result is always `RMW_RET_OK` |
| ClientProperties.EarlyFailureChangesNothing | rmw_microxrcedds_c/src/rmw_client.c:39-68 | a failed argument check, a failed name allocation or an exhausted pool leaves the counter, both free lists and the pool's head record unchanged |
| ClientProperties.CounterMovesOnceIdDrawn | rmw_microxrcedds_c/src/rmw_client.c:96-143 | the counter moves by exactly one, modulo 2^16, when the call gets past the GID-size check, even if it fails later; otherwise it does not move |
| ClientProperties.TakenRecordClaimed | rmw_microxrcedds_c/src/rmw_client.c:70-114 | a record that was taken belongs to the node and has zero history cursors, whatever fails later. Its identifier and GID are those of the pre-increment counter exactly when the GID-size check passed; otherwise they are unchanged |
| ClientProperties.SuccessfulRecord | rmw_microxrcedds_c/src/rmw_client.c:70-155 | on success the record has the resolved callbacks, a requester identifier from the pre-increment counter, and a GID of the configured size that decodes to that identifier |
| ClientProperties.TakenRecordPlacement | rmw_microxrcedds_c/src/rmw_client.c:64-143 | before `rmw_client_delete` runs, `rmw_create_client` has not pushed a taken record back onto the client pool. It is in the service pool exactly when the agent rejected the requester, and then `rmw_client_delete` also receives it through the handle's `data`. On the failures at lines 90, 98, 101 and 122 it is in neither pool |
| ClientProperties.DisjointFreeListsPreserved | rmw_microxrcedds_c/src/rmw_client.c:64-68 | up to the point where `rmw_client_delete` runs, a call keeps each record at most once in the client free list and never in both pools, so the placement lemma holds for every call of a sequence whose failure paths leave the pools alone |
| ClientProperties.FreeSlotsAfterCall | rmw_microxrcedds_c/src/rmw_client.c:64-143 | the two free lists together lose one record exactly when the call takes one and the agent does not reject it; otherwise their total size is unchanged |
| ClientProperties.IdGenCountsDraws | rmw_microxrcedds_c/src/rmw_client.c:110 | over a sequence of calls the counter advances once per call that drew an identifier |
| ClientProperties.ClientIdsDistinct | rmw_microxrcedds_c/src/rmw_client.c:110 | two calls on one node that both draw give their clients different identifiers while the node draws at most 2^16 in all |

## Left out

- Session I/O is not modelled: `uxr_buffer_create_requester_xml`, `uxr_run_session_until_all_status` with its 1000 ms wait, and the status array. Their only effect on the outcome is the `statusOk` input.
- `build_service_xml` and `generate_name` are not part of this model. The XML buffer and the generated name are left out, and only the result is the `xmlBuilt` input.
- The `MICRO_XRCEDDS_USE_REFS` configuration (lines 127-132) is left out. It leaves `client_req` uninitialised; only the XML configuration is modelled.
- The data request after success (lines 146-153) and `request_id` are left out. It is a transport call whose result is never checked.
- `rmw_client_delete` is not part of this model. The handle it receives is returned as `deletedHandle`, and what it frees is not modelled.
- The node state that `CreateClient`, `NewClient` and `NodeAfter` give is the state before `rmw_client_delete` runs on the `fail` path (line 158). Anything that call does to the free lists is left out. `rmw_destroy_client` releases a client only through `rmw_client_delete` (line 172), so that call probably returns the record in the handle's `data` to a pool. On rejection the record is already on the service pool (line 142), so it would then be queued twice. This cannot be confirmed from the code modelled here.
- `rmw_allocate` for the handle (line 51) is dereferenced without a null check. The model always allocates the handle. The name allocation (line 56) is the `nameAllocated` input.
- `get_memory` and `put_memory` are not part of this model. The pools are free lists that are popped and pushed at the head.
- The layout of `uxrObjectId` and `UXR_REQUESTER_ID` are not part of this model. The identifier is taken to be a 16-bit id, a kind byte and a padding byte (4 bytes, least significant byte first), with requester kind 0x07.
- The padding byte is taken to be zero. C leaves the padding of the struct returned by `uxr_object_id` unspecified. Byte 3 of `GidBytes`, and the direction of `GidInjective` from equal identifiers to equal GIDs, rest on this choice.
- The width of `id_gen` comes from a header that is not part of this model. It is taken to be `uint16_t`, so the counter wraps modulo 2^16 in `NextCounter` and in all the counter lemmas. `RMW_GID_STORAGE_SIZE` is a field of the node, so both outcomes of the check at line 99 are covered.
- The handles of `get_service_typesupport_handle` are not modelled beyond their `data` pointer. A type support is a map from identifier to that pointer, and both type-support libraries are assumed to be compiled in.
- The implementation identifiers are compared by `strcmp`, modelled as string equality.
- `EPROS_PRINT_TRACE` and the error-handling state beyond the message left are not modelled.
- The node's other entity kinds also draw from `id_gen`. The counter lemmas speak of client creation only.
- RmwClient.DestroyClient: states the result and the hand-off of the handle only. What `rmw_client_delete` releases is not modelled.
