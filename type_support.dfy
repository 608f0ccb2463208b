/** Resolution of a service's type support to the Micro XRCE-DDS callbacks. */
module TypeSupport {
  import opened Common

  /** Identifier of the C type-support implementation. */
  const C_TYPESUPPORT_IDENTIFIER: string := "rosidl_typesupport_microxrcedds_c"
  /** Identifier of the C++ type-support implementation. */
  const CPP_TYPESUPPORT_IDENTIFIER: string := "rosidl_typesupport_microxrcedds_cpp"

  /** The serialisation callbacks of a service type: an opaque, shared handle. */
  datatype ServiceCallbacks = ServiceCallbacks(handle: nat)

  /** A service type support: for each type-support identifier it provides,
      the `data` pointer of the matching handle (null or the callbacks). */
  datatype ServiceTypeSupport = ServiceTypeSupport(handles: map<string, Option<ServiceCallbacks>>)

  /** `get_service_typesupport_handle`: the handle for `identifier`, if any;
      the handle's value is its `data` pointer. */
  function GetHandle(ts: ServiceTypeSupport, identifier: string): Option<Option<ServiceCallbacks>>
  {
    if identifier in ts.handles then Some(ts.handles[identifier]) else None
  }

  /** The handle the client uses: the C implementation's if there is one,
      otherwise the C++ implementation's, otherwise none. */
  function Resolve(ts: ServiceTypeSupport): (r: Option<Option<ServiceCallbacks>>)
    ensures r.None? <==> C_TYPESUPPORT_IDENTIFIER !in ts.handles && CPP_TYPESUPPORT_IDENTIFIER !in ts.handles
    ensures C_TYPESUPPORT_IDENTIFIER in ts.handles ==> r == Some(ts.handles[C_TYPESUPPORT_IDENTIFIER])
    ensures C_TYPESUPPORT_IDENTIFIER !in ts.handles && CPP_TYPESUPPORT_IDENTIFIER in ts.handles ==>
              r == Some(ts.handles[CPP_TYPESUPPORT_IDENTIFIER])
  {
    var c := GetHandle(ts, C_TYPESUPPORT_IDENTIFIER);
    if c.None? then GetHandle(ts, CPP_TYPESUPPORT_IDENTIFIER) else c
  }
}
