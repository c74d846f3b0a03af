/** Startup discovery: which methods of the candidate types are bound to a
    queue, and the registrations the broker receives for them, in order. */
module Registry {
  import opened Reflection

  /** The metadata of a `[BackgroundRequest]` attribute. */
  datatype BackgroundRequest = BackgroundRequest(queue: string, typeOfRequest: TypeId)

  /** A method as reflection reports it. `backgroundRequest` is the
      method's BackgroundRequest attribute, if it carries one;
      `returnTypeHasGetAwaiter` says whether its return type has a public
      method named GetAwaiter. */
  datatype MethodInfo = MethodInfo(
    name: string,
    isPublic: bool,
    isStatic: bool,
    backgroundRequest: Option<BackgroundRequest>,
    returnTypeHasGetAwaiter: bool)

  /** A candidate type with the methods `GetMethods` reports for it, in the
      order it reports them. */
  datatype ServiceType = ServiceType(id: TypeId, methods: seq<MethodInfo>)

  /** The closure registered with the broker: it captures the service type,
      the method (`handler`) and the `isAwaitable` flag computed once at startup. */
  datatype Callback = Callback(serviceType: TypeId, handler: MethodInfo, isAwaitable: bool)

  /** One `rabbitMqService.ReceiveRequest(queue, typeOfRequest, callback)` call. */
  datatype Registration = Registration(queue: string, typeOfRequest: TypeId, callback: Callback)

  /** `BindingFlags.Public | BindingFlags.Instance` together with
      `GetCustomAttributes<BackgroundRequest>().Any()`. */
  predicate IsBackgroundRequestMethod(m: MethodInfo)
  {
    m.isPublic && !m.isStatic && m.backgroundRequest.Some?
  }

  /** `method.ReturnType.GetMethod(nameof(Task.GetAwaiter)) != null`. */
  predicate IsAwaitable(m: MethodInfo)
  {
    m.returnTypeHasGetAwaiter
  }

  /** The `.Where(...).ToList()` selection of a type's methods. */
  function SelectMethods(methods: seq<MethodInfo>): (selected: seq<MethodInfo>)
    ensures forall k :: 0 <= k < |selected| ==> IsBackgroundRequestMethod(selected[k])
    ensures |selected| <= |methods|
  {
    if methods == [] then []
    else (if IsBackgroundRequestMethod(methods[0]) then [methods[0]] else []) + SelectMethods(methods[1..])
  }

  /** A method is selected exactly when it is one of the type's methods, public,
      not static, and carries BackgroundRequest. */
  lemma {:induction false} SelectMethodsMembership(methods: seq<MethodInfo>, m: MethodInfo)
    ensures m in SelectMethods(methods) <==> m in methods && IsBackgroundRequestMethod(m)
  {
    if methods != [] {
      SelectMethodsMembership(methods[1..], m);
      assert methods == [methods[0]] + methods[1..];
    }
  }

  /** Selection keeps the order of the methods: it distributes over concatenation. */
  lemma {:induction false} SelectMethodsAppend(a: seq<MethodInfo>, b: seq<MethodInfo>)
    ensures SelectMethods(a + b) == SelectMethods(a) + SelectMethods(b)
  {
    if a == [] {
      assert a + b == b;
    } else {
      assert (a + b)[0] == a[0];
      assert (a + b)[1..] == a[1..] + b;
      SelectMethodsAppend(a[1..], b);
    }
  }

  /** The registration made for one selected method of a type. */
  function RegistrationFor(serviceType: TypeId, m: MethodInfo): (r: Registration)
    requires m.backgroundRequest.Some?
  {
    Registration(m.backgroundRequest.value.queue, m.backgroundRequest.value.typeOfRequest,
                 Callback(serviceType, m, IsAwaitable(m)))
  }

  /** The registrations made, in order, for a list of selected methods. */
  function MethodRegistrations(serviceType: TypeId, methods: seq<MethodInfo>): (regs: seq<Registration>)
    requires forall k :: 0 <= k < |methods| ==> methods[k].backgroundRequest.Some?
    ensures |regs| == |methods|
    ensures forall k :: 0 <= k < |regs| ==>
              regs[k].queue == methods[k].backgroundRequest.value.queue &&
              regs[k].typeOfRequest == methods[k].backgroundRequest.value.typeOfRequest &&
              regs[k].callback == Callback(serviceType, methods[k], IsAwaitable(methods[k]))
  {
    if methods == [] then []
    else [RegistrationFor(serviceType, methods[0])] + MethodRegistrations(serviceType, methods[1..])
  }

  /** Registering one more method appends exactly its registration after
      those already made (`before` and the earlier methods'). */
  lemma MethodRegistrationsSnoc(before: seq<Registration>, serviceType: TypeId, methods: seq<MethodInfo>, m: MethodInfo)
    requires forall k :: 0 <= k < |methods| ==> methods[k].backgroundRequest.Some?
    requires m.backgroundRequest.Some?
    ensures before + MethodRegistrations(serviceType, methods + [m]) ==
              before + MethodRegistrations(serviceType, methods) + [RegistrationFor(serviceType, m)]
  {
  }

  /** What `ReceiveRequest(requestServiceType)` registers. */
  function TypeRegistrations(t: ServiceType): (regs: seq<Registration>)
  {
    MethodRegistrations(t.id, SelectMethods(t.methods))
  }

  /** What `ExecuteAsync` registers: each type's registrations, in type order. */
  function AllRegistrations(types: seq<ServiceType>): (regs: seq<Registration>)
  {
    if types == [] then [] else TypeRegistrations(types[0]) + AllRegistrations(types[1..])
  }

  lemma {:induction false} AllRegistrationsAppend(a: seq<ServiceType>, b: seq<ServiceType>)
    ensures AllRegistrations(a + b) == AllRegistrations(a) + AllRegistrations(b)
  {
    if a == [] {
      assert a + b == b;
    } else {
      assert (a + b)[0] == a[0];
      assert (a + b)[1..] == a[1..] + b;
      AllRegistrationsAppend(a[1..], b);
    }
  }

  /** Registering one more type appends exactly that type's registrations
      after those already made (`before` and the earlier types'). */
  lemma AllRegistrationsSnoc(before: seq<Registration>, types: seq<ServiceType>, t: ServiceType)
    ensures before + AllRegistrations(types + [t]) == before + AllRegistrations(types) + TypeRegistrations(t)
  {
    AllRegistrationsAppend(types, [t]);
    assert AllRegistrations([t]) == TypeRegistrations(t) + AllRegistrations([]);
  }

  /** A type's registrations are exactly those of its public instance methods
      that carry BackgroundRequest. */
  lemma TypeRegistrationOrigin(t: ServiceType, r: Registration)
    ensures r in TypeRegistrations(t) <==>
              exists m :: m in t.methods && IsBackgroundRequestMethod(m) && r == RegistrationFor(t.id, m)
  {
    var selected := SelectMethods(t.methods);
    var regs := TypeRegistrations(t);
    SelectMethodsMembership(t.methods, r.callback.handler);
    if r in regs {
      var k :| 0 <= k < |regs| && regs[k] == r;
      assert selected[k] in selected;
      assert r == RegistrationFor(t.id, selected[k]);
    }
    if exists m :: m in t.methods && IsBackgroundRequestMethod(m) && r == RegistrationFor(t.id, m) {
      var m :| m in t.methods && IsBackgroundRequestMethod(m) && r == RegistrationFor(t.id, m);
      assert m in selected;
      var k :| 0 <= k < |selected| && selected[k] == m;
      assert regs[k] == r;
    }
  }

  /** Every registration made at startup comes from a public instance method
      carrying BackgroundRequest of one of the candidate types, and every such
      method is registered: no other registrations are made. */
  lemma {:induction false} RegistrationOrigin(types: seq<ServiceType>, r: Registration)
    ensures r in AllRegistrations(types) <==>
              exists t, m :: t in types && m in t.methods && IsBackgroundRequestMethod(m) &&
                             r == RegistrationFor(t.id, m)
  {
    if types != [] {
      RegistrationOrigin(types[1..], r);
      TypeRegistrationOrigin(types[0], r);
      if exists t, m :: t in types && m in t.methods && IsBackgroundRequestMethod(m) && r == RegistrationFor(t.id, m) {
        var t, m :| t in types && m in t.methods && IsBackgroundRequestMethod(m) && r == RegistrationFor(t.id, m);
        if t != types[0] {
          assert t in types[1..];
        }
      }
    }
  }

  /** There is no duplicate check: two selected methods of a type with the
      same queue and request type are both registered, at their own positions. */
  lemma DuplicateBindingsAreRegistered(t: ServiceType, i: nat, j: nat)
    requires i < j < |SelectMethods(t.methods)|
    requires SelectMethods(t.methods)[i].backgroundRequest == SelectMethods(t.methods)[j].backgroundRequest
    ensures |TypeRegistrations(t)| == |SelectMethods(t.methods)|
    ensures TypeRegistrations(t)[i].queue == TypeRegistrations(t)[j].queue
    ensures TypeRegistrations(t)[i].typeOfRequest == TypeRegistrations(t)[j].typeOfRequest
  {
  }
}
