/**
 * The API server as the reconcilers see it: a store of objects keyed by
 * (kind, namespace, name), listed in a fixed order, and a script of the
 * outcomes the environment gives the next API calls (a concurrent writer's
 * conflict, a server failure). Every call consumes one script entry; an
 * empty script lets every call through. The pure functions below are the
 * meaning of each call; class Client is the mutable handle the controllers
 * hold, and its methods are proved to behave as these functions.
 */
module Cluster {
  import opened Wrappers
  import opened Kube
  import opened V1alpha1

  datatype Object =
    | NsoObject(nso: Nso)
    | BundleObject(bundle: PackageBundle)
    | ServiceObject(service: Service)
    | StatefulSetObject(statefulSet: StatefulSet)
    | ClaimObject(claim: Claim)
    | JobObject(job: Job)
    | SecretObject(secretMeta: ObjectMeta)
    | ConfigMapObject(configMapMeta: ObjectMeta)

  function KindOf(o: Object): Kind
  {
    match o
    case NsoObject(_) => NsoKind
    case BundleObject(_) => BundleKind
    case ServiceObject(_) => ServiceKind
    case StatefulSetObject(_) => StatefulSetKind
    case ClaimObject(_) => ClaimKind
    case JobObject(_) => JobKind
    case SecretObject(_) => SecretKind
    case ConfigMapObject(_) => ConfigMapKind
  }

  function MetaOf(o: Object): ObjectMeta
  {
    match o
    case NsoObject(n) => n.meta
    case BundleObject(b) => b.meta
    case ServiceObject(s) => s.meta
    case StatefulSetObject(s) => s.meta
    case ClaimObject(c) => c.meta
    case JobObject(j) => j.meta
    case SecretObject(m) => m
    case ConfigMapObject(m) => m
  }

  /** The key an object is stored under. */
  function KeyOf(o: Object): Key
  {
    Key(KindOf(o), MetaOf(o).namespace, MetaOf(o).name)
  }

  /** The key of the PackageBundle a request names. */
  function BundleKey(req: Request): Key
  {
    Key(BundleKind, req.namespace, req.name)
  }

  datatype ApiError = NotFound | AlreadyExists | Conflict | ServerError(message: string)

  /** The text an error formats to with %v. */
  function ErrorText(e: ApiError): string
  {
    match e
    case NotFound => "not found"
    case AlreadyExists => "already exists"
    case Conflict => "the object has been modified"
    case ServerError(m) => m
  }

  datatype Result<T> = Ok(value: T) | Err(error: ApiError)

  /** What a Reconcile call returns: a ctrl.Result and an error. */
  datatype Reconciled = Reconciled(result: CtrlResult, err: Option<ApiError>)

  datatype Fault = Pass | Fail(error: ApiError)

  datatype Store = Store(objects: map<Key, Object>, order: seq<Key>, faults: seq<Fault>)

  /**
   * A well-formed store: every object sits under its own key, and the
   * listing order names every stored key exactly once.
   */
  ghost predicate WellFormed(s: Store)
  {
    && (forall k :: k in s.objects ==> KeyOf(s.objects[k]) == k)
    && (forall k :: k in s.objects <==> k in s.order)
    && (forall i, j :: 0 <= i < j < |s.order| ==> s.order[i] != s.order[j])
  }

  /** The outcome the environment gives the next call, and the store after it. */
  function TakeFault(s: Store): (r: (Fault, Store))
    ensures r.1.objects == s.objects && r.1.order == s.order
    ensures r.0 == (if s.faults == [] then Pass else s.faults[0])
    ensures |r.1.faults| == if s.faults == [] then 0 else |s.faults| - 1
  {
    if s.faults == [] then (Pass, s) else (s.faults[0], s.(faults := s.faults[1..]))
  }

  /** The client refuses a Get of an empty name before any request is sent. */
  const EmptyNameMessage := "resource name may not be empty"
  /** The API server refuses to create an object without a name. */
  const NameRequiredMessage := "name or generateName is required"

  /**
   * Get: the stored object, NotFound, or the scripted failure. Never writes.
   * An empty name is refused locally and uses no scripted answer.
   */
  function GetObject(s: Store, key: Key): (r: (Result<Object>, Store))
    ensures r.1.objects == s.objects && r.1.order == s.order
    ensures r.0.Ok? ==> key in s.objects && r.0.value == s.objects[key]
    ensures r.0 == Err(NotFound) ==> key !in s.objects || TakeFault(s).0 == Fail(NotFound)
    ensures key.name == "" ==> r == (Err(ServerError(EmptyNameMessage)), s)
  {
    var (f, s') := TakeFault(s);
    if key.name == "" then (Err(ServerError(EmptyNameMessage)), s)
    else if f.Fail? then (Err(f.error), s')
    else if key in s.objects then (Ok(s.objects[key]), s')
    else (Err(NotFound), s')
  }

  /** Get into a PackageBundle. */
  function BundleAt(s: Store, req: Request): (r: (Result<PackageBundle>, Store))
    ensures r.1.objects == s.objects && r.1.order == s.order
    ensures r.0.Ok? ==> BundleKey(req) in s.objects && s.objects[BundleKey(req)] == BundleObject(r.0.value)
  {
    var (got, s') := GetObject(s, BundleKey(req));
    match got
    case Err(e) => (Err(e), s')
    case Ok(o) => if o.BundleObject? then (Ok(o.bundle), s') else (Err(NotFound), s')
  }

  /** Get into an NSO. */
  function NsoAt(s: Store, req: Request): (r: (Result<Nso>, Store))
    ensures r.1.objects == s.objects && r.1.order == s.order
    ensures r.0.Ok? ==> Key(NsoKind, req.namespace, req.name) in s.objects
  {
    var (got, s') := GetObject(s, Key(NsoKind, req.namespace, req.name));
    match got
    case Err(e) => (Err(e), s')
    case Ok(o) => if o.NsoObject? then (Ok(o.nso), s') else (Err(NotFound), s')
  }

  /** Get into a Job. */
  function JobAt(s: Store, req: Request): (r: (Result<Job>, Store))
    ensures r.1.objects == s.objects && r.1.order == s.order
  {
    var (got, s') := GetObject(s, Key(JobKind, req.namespace, req.name));
    match got
    case Err(e) => (Err(e), s')
    case Ok(o) => if o.JobObject? then (Ok(o.job), s') else (Err(NotFound), s')
  }

  /**
   * Create: stores a new object; the scripted failure, a refusal of an
   * empty name, or AlreadyExists if its key is taken.
   */
  function CreateObject(s: Store, obj: Object): (r: (Option<ApiError>, Store))
    ensures WellFormed(s) ==> WellFormed(r.1)
    ensures r.0.None? ==> KeyOf(obj) !in s.objects && KeyOf(obj).name != "" && r.1.objects == s.objects[KeyOf(obj) := obj]
    ensures r.0.Some? ==> r.1.objects == s.objects && r.1.order == s.order
  {
    var (f, s') := TakeFault(s);
    var key := KeyOf(obj);
    if f.Fail? then (Some(f.error), s')
    else if key.name == "" then (Some(ServerError(NameRequiredMessage)), s')
    else if key in s.objects then (Some(AlreadyExists), s')
    else (None, s'.(objects := s.objects[key := obj], order := s.order + [key]))
  }

  /**
   * Update of the status subresource of a PackageBundle: only the status of
   * the stored object is replaced; NotFound if there is none.
   */
  function WriteStatus(s: Store, req: Request, status: PackageBundleStatus): (r: (Option<ApiError>, Store))
    ensures WellFormed(s) ==> WellFormed(r.1)
    ensures r.1.order == s.order && r.1.objects.Keys == s.objects.Keys
    ensures r.0.Some? ==> r.1.objects == s.objects
    ensures r.0.None? ==>
      BundleKey(req) in s.objects && s.objects[BundleKey(req)].BundleObject? &&
      r.1.objects == s.objects[BundleKey(req) := BundleObject(s.objects[BundleKey(req)].bundle.(status := status))]
  {
    var (f, s') := TakeFault(s);
    var key := BundleKey(req);
    if f.Fail? then (Some(f.error), s')
    else if key !in s.objects || !s.objects[key].BundleObject? then (Some(NotFound), s')
    else (None, s'.(objects := s.objects[key := BundleObject(s.objects[key].bundle.(status := status))]))
  }

  /**
   * The namespace option of a List: an empty namespace selects every
   * namespace, any other selects only itself.
   */
  predicate InNamespace(ns: string, namespace: string)
  {
    ns == "" || namespace == ns
  }

  /** The NSOs the namespace option ns selects, in listing order. */
  function NsosIn(objects: map<Key, Object>, order: seq<Key>, ns: string): seq<Nso>
  {
    if order == [] then []
    else
      var k := order[|order| - 1];
      NsosIn(objects, order[..|order| - 1], ns) +
      (if k.kind == NsoKind && InNamespace(ns, k.namespace) && k in objects && objects[k].NsoObject?
       then [objects[k].nso] else [])
  }

  /** List of NSOs under the namespace option ns, or the scripted failure. */
  function ListNsos(s: Store, ns: string): (r: (Result<seq<Nso>>, Store))
    ensures r.1.objects == s.objects && r.1.order == s.order
  {
    var (f, s') := TakeFault(s);
    if f.Fail? then (Err(f.error), s') else (Ok(NsosIn(s.objects, s.order, ns)), s')
  }

  /** order[i] is the key of NSO n, stored in a namespace ns selects. */
  ghost predicate ListedAt(objects: map<Key, Object>, order: seq<Key>, ns: string, n: Nso, i: int)
  {
    0 <= i < |order| && order[i].kind == NsoKind && InNamespace(ns, order[i].namespace) &&
    order[i] in objects && objects[order[i]] == NsoObject(n)
  }

  lemma {:induction false} NsosInMembers(objects: map<Key, Object>, order: seq<Key>, ns: string, n: Nso)
    ensures n in NsosIn(objects, order, ns) <==> exists i :: ListedAt(objects, order, ns, n, i)
  {
    if order != [] {
      var init := order[..|order| - 1];
      NsosInMembers(objects, init, ns, n);
      if n in NsosIn(objects, init, ns) {
        var i :| ListedAt(objects, init, ns, n, i);
        assert ListedAt(objects, order, ns, n, i);
      } else if n in NsosIn(objects, order, ns) {
        assert ListedAt(objects, order, ns, n, |order| - 1);
      }
      if exists i :: ListedAt(objects, order, ns, n, i) {
        var i :| ListedAt(objects, order, ns, n, i);
        if i < |init| {
          assert ListedAt(objects, init, ns, n, i);
        } else {
          assert NsosIn(objects, order, ns) == NsosIn(objects, init, ns) + [n];
        }
      }
    }
  }

  /**
   * In a well-formed store, the listing under namespace option ns holds
   * exactly the stored NSOs of the namespaces ns selects: those of ns
   * alone, or of every namespace when ns is empty.
   */
  lemma ListNsosExact(s: Store, ns: string, n: Nso)
    requires WellFormed(s)
    ensures n in NsosIn(s.objects, s.order, ns) <==>
      InNamespace(ns, n.meta.namespace) && Key(NsoKind, n.meta.namespace, n.meta.name) in s.objects &&
      s.objects[Key(NsoKind, n.meta.namespace, n.meta.name)] == NsoObject(n)
  {
    NsosInMembers(s.objects, s.order, ns, n);
    var key := Key(NsoKind, n.meta.namespace, n.meta.name);
    if InNamespace(ns, n.meta.namespace) && key in s.objects && s.objects[key] == NsoObject(n) {
      assert key in s.order;
      var i :| 0 <= i < |s.order| && s.order[i] == key;
      assert ListedAt(s.objects, s.order, ns, n, i);
    }
    if n in NsosIn(s.objects, s.order, ns) {
      var i :| ListedAt(s.objects, s.order, ns, n, i);
      assert KeyOf(NsoObject(n)) == s.order[i];
    }
  }

  /** The cluster handle a reconciler holds (controller-runtime's client.Client). */
  class Client {
    var objects: map<Key, Object>
    var order: seq<Key>
    var faults: seq<Fault>

    function State(): Store
      reads this
    {
      Store(objects, order, faults)
    }

    ghost predicate Valid()
      reads this
    {
      WellFormed(State())
    }

    constructor (s: Store)
      requires WellFormed(s)
      ensures Valid() && State() == s
    {
      objects, order, faults := s.objects, s.order, s.faults;
    }

    method NextFault() returns (f: Fault)
      modifies this
      ensures (f, State()) == TakeFault(old(State()))
    {
      if faults == [] {
        f := Pass;
      } else {
        f := faults[0];
        faults := faults[1..];
      }
    }

    method Get(key: Key) returns (r: Result<Object>)
      requires Valid()
      modifies this
      ensures Valid()
      ensures (r, State()) == GetObject(old(State()), key)
    {
      if key.name == "" {
        return Err(ServerError(EmptyNameMessage));
      }
      var f := NextFault();
      if f.Fail? {
        r := Err(f.error);
      } else if key in objects {
        r := Ok(objects[key]);
      } else {
        r := Err(NotFound);
      }
    }

    method GetBundle(req: Request) returns (r: Result<PackageBundle>)
      requires Valid()
      modifies this
      ensures Valid()
      ensures (r, State()) == BundleAt(old(State()), req)
    {
      var got := Get(BundleKey(req));
      match got
      case Err(e) => r := Err(e);
      case Ok(o) => r := if o.BundleObject? then Ok(o.bundle) else Err(NotFound);
    }

    method GetNso(req: Request) returns (r: Result<Nso>)
      requires Valid()
      modifies this
      ensures Valid()
      ensures (r, State()) == NsoAt(old(State()), req)
    {
      var got := Get(Key(NsoKind, req.namespace, req.name));
      match got
      case Err(e) => r := Err(e);
      case Ok(o) => r := if o.NsoObject? then Ok(o.nso) else Err(NotFound);
    }

    method GetJob(req: Request) returns (r: Result<Job>)
      requires Valid()
      modifies this
      ensures Valid()
      ensures (r, State()) == JobAt(old(State()), req)
    {
      var got := Get(Key(JobKind, req.namespace, req.name));
      match got
      case Err(e) => r := Err(e);
      case Ok(o) => r := if o.JobObject? then Ok(o.job) else Err(NotFound);
    }

    method Create(obj: Object) returns (err: Option<ApiError>)
      requires Valid()
      modifies this
      ensures Valid()
      ensures (err, State()) == CreateObject(old(State()), obj)
    {
      ghost var before := State();
      var f := NextFault();
      var key := KeyOf(obj);
      if f.Fail? {
        err := Some(f.error);
      } else if key.name == "" {
        err := Some(ServerError(NameRequiredMessage));
      } else if key in objects {
        err := Some(AlreadyExists);
      } else {
        objects := objects[key := obj];
        order := order + [key];
        err := None;
      }
      assert (err, State()) == CreateObject(before, obj);
    }

    method UpdateStatus(req: Request, status: PackageBundleStatus) returns (err: Option<ApiError>)
      requires Valid()
      modifies this
      ensures Valid()
      ensures (err, State()) == WriteStatus(old(State()), req, status)
    {
      ghost var before := State();
      var f := NextFault();
      var key := BundleKey(req);
      if f.Fail? {
        err := Some(f.error);
      } else if key !in objects || !objects[key].BundleObject? {
        err := Some(NotFound);
      } else {
        objects := objects[key := BundleObject(objects[key].bundle.(status := status))];
        err := None;
      }
      assert (err, State()) == WriteStatus(before, req, status);
    }

    method List(ns: string) returns (r: Result<seq<Nso>>)
      requires Valid()
      modifies this
      ensures Valid()
      ensures (r, State()) == ListNsos(old(State()), ns)
    {
      var f := NextFault();
      if f.Fail? {
        r := Err(f.error);
      } else {
        r := Ok(NsosIn(objects, order, ns));
      }
    }
  }
}
