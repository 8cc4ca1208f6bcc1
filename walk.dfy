/**
 * The schema walk of the proto server generator: one pre-order traversal of
 * the parsed schema that records the current `go_package` option, builds a
 * service record per service declaration and a model per marked message.
 *
 * The parsed schema is given as a tree of elements. The walk visits every
 * element in order, runs the callbacks that match its kind, and then walks
 * the element's own children, so nested messages are visited too.
 */
module Walk {
  import opened Wrappers
  import opened Naming
  import opened Domain
  import opened Biz

  /** The schema elements the walk distinguishes; `Other` stands for every
      other element kind, with the children it contains. */
  datatype Element =
    | OptionDecl(name: string, constant: string)
    | ServiceDecl(name: string, elements: seq<Element>)
    | Rpc(name: string, requestType: string, returnsType: string, streamsRequest: bool, streamsReturns: bool)
    | Message(name: string, comment: Option<seq<string>>, elements: seq<Element>)
    | NormalField(name: string, fieldType: string, repeated: bool)
    | Other(elements: seq<Element>)

  /** The option whose value gives the Go package of the generated code. */
  const GoPackage := "go_package"

  // ---------------------------------------------------------------------
  // Substrings and marker comments
  // ---------------------------------------------------------------------

  /** `sub` occurs in `s` at offset `k`. */
  predicate OccursAt(s: string, sub: string, k: int)
  {
    0 <= k && k + |sub| <= |s| && s[k..k + |sub|] == sub
  }

  lemma OccursAtShift(s: string, sub: string)
    requires |s| > 0
    ensures (exists k :: OccursAt(s, sub, k)) <==> OccursAt(s, sub, 0) || exists k :: OccursAt(s[1..], sub, k)
  {
    forall k | OccursAt(s[1..], sub, k) ensures OccursAt(s, sub, k + 1) {
      assert s[1..][k..k + |sub|] == s[k + 1..k + 1 + |sub|];
    }
    forall k | OccursAt(s, sub, k) && k > 0 ensures OccursAt(s[1..], sub, k - 1) {
      assert s[1..][k - 1..k - 1 + |sub|] == s[k..k + |sub|];
    }
  }

  /** `strings.Contains`. */
  function Contains(s: string, sub: string): (r: bool)
    ensures r <==> exists k :: OccursAt(s, sub, k)
    decreases |s|
  {
    if |sub| > |s| then false
    else if s[..|sub|] == sub then assert OccursAt(s, sub, 0); true
    else OccursAtShift(s, sub); Contains(s[1..], sub)
  }

  /** A message comment that opts the message into model extraction: it is
      present and one of its lines contains the marker. */
  predicate Marked(comment: Option<seq<string>>, marker: string)
  {
    comment.Some? && exists j :: 0 <= j < |comment.value| && Contains(comment.value[j], marker)
  }

  // ---------------------------------------------------------------------
  // What one service or message contributes
  // ---------------------------------------------------------------------

  /** The direct RPC elements of a service, in declaration order. */
  function Rpcs(es: seq<Element>): seq<Element>
  {
    if es == [] then []
    else Rpcs(es[..|es| - 1]) + (if es[|es| - 1].Rpc? then [es[|es| - 1]] else [])
  }

  /** The RPC elements of `es`: exactly those of its elements that are
      RPCs. */
  lemma {:induction false} RpcsSpec(es: seq<Element>)
    ensures forall e :: e in Rpcs(es) <==> e in es && e.Rpc?
  {
    if es != [] {
      RpcsSpec(es[..|es| - 1]);
      assert es == es[..|es| - 1] + [es[|es| - 1]];
    }
  }

  /** The method record built for one RPC of service `service`. */
  function MethodFor(service: string, r: Element): Method
    requires r.Rpc?
  {
    Method(ServiceName(service), ServiceName(r.name), ParametersName(r.requestType),
           ParametersName(r.returnsType), GetMethodType(r.streamsRequest, r.streamsReturns))
  }

  /** The methods of a service: one per direct RPC element, in order; other
      elements are skipped. */
  function MethodsOf(service: string, es: seq<Element>): seq<Method>
  {
    if es == [] then []
    else
      var last := es[|es| - 1];
      MethodsOf(service, es[..|es| - 1]) + (if last.Rpc? then [MethodFor(service, last)] else [])
  }

  /** The methods correspond one to one, in order, to the RPC elements; each
      belongs to the service and has dot-free request and reply names. */
  lemma {:induction false} MethodsOfSpec(service: string, es: seq<Element>)
    ensures |MethodsOf(service, es)| == |Rpcs(es)|
    ensures forall i :: 0 <= i < |Rpcs(es)| ==> Rpcs(es)[i].Rpc? && MethodsOf(service, es)[i] == MethodFor(service, Rpcs(es)[i])
    ensures forall m :: m in MethodsOf(service, es) ==>
      m.service == ServiceName(service) && '.' !in m.request && '.' !in m.reply
  {
    if es != [] {
      MethodsOfSpec(service, es[..|es| - 1]);
    }
  }

  /** The direct normal fields of a message, in declaration order. */
  function NormalFields(es: seq<Element>): seq<Element>
  {
    if es == [] then []
    else NormalFields(es[..|es| - 1]) + (if es[|es| - 1].NormalField? then [es[|es| - 1]] else [])
  }

  /** The normal fields of `es`: exactly those of its elements that are
      normal fields. */
  lemma {:induction false} NormalFieldsSpec(es: seq<Element>)
    ensures forall e :: e in NormalFields(es) <==> e in es && e.NormalField?
  {
    if es != [] {
      NormalFieldsSpec(es[..|es| - 1]);
      assert es == es[..|es| - 1] + [es[|es| - 1]];
    }
  }

  /** The model field built for one normal field: normalised name, the type
      as declared, and the repeated flag. */
  function FieldFor(f: Element): Field
    requires f.NormalField?
  {
    Field(FieldName(f.name), f.fieldType, f.repeated)
  }

  /** The fields of a model: one per direct normal field, in order. */
  function FieldsOf(es: seq<Element>): seq<Field>
  {
    if es == [] then []
    else
      var last := es[|es| - 1];
      FieldsOf(es[..|es| - 1]) + (if last.NormalField? then [FieldFor(last)] else [])
  }

  /** The fields correspond one to one, in order, to the normal fields. */
  lemma {:induction false} FieldsOfSpec(es: seq<Element>)
    ensures |FieldsOf(es)| == |NormalFields(es)|
    ensures forall i :: 0 <= i < |NormalFields(es)| ==>
      NormalFields(es)[i].NormalField? && FieldsOf(es)[i] == FieldFor(NormalFields(es)[i])
  {
    if es != [] {
      FieldsOfSpec(es[..|es| - 1]);
    }
  }

  /** The record of a service declaration visited while `pkg` is current. */
  function ServiceOf(pkg: string, name: string, es: seq<Element>): ServiceView
  {
    ServiceView(UpTo(pkg, '/'), pkg, ServiceName(name), MethodsOf(name, es), false, false, false)
  }

  /** A message that is extracted as a model. */
  predicate IsModelMessage(e: Element, marker: string)
  {
    e.Message? && Marked(e.comment, marker)
  }

  /** The model of a message: its name as declared and its fields. */
  function ModelOf(e: Element): Model
    requires e.Message?
  {
    Model(e.name, FieldsOf(e.elements))
  }

  // ---------------------------------------------------------------------
  // The walk as a function
  // ---------------------------------------------------------------------

  /** What the callbacks of the walk have built so far: the current package
      and the services and models in the order they were visited. */
  datatype State = State(pkg: string, services: seq<ServiceView>, models: seq<Model>)

  const Initial := State("", [], [])

  /** The callbacks run on one element (without its children). */
  function Visit(e: Element, st: State, marker: string): State
  {
    match e
    case OptionDecl(name, constant) =>
      if name == GoPackage then st.(pkg := UpTo(constant, ';')) else st
    case ServiceDecl(name, es) =>
      st.(services := st.services + [ServiceOf(st.pkg, name, es)])
    case Message(name, comment, es) =>
      if Marked(comment, marker) then st.(models := st.models + [ModelOf(e)]) else st
    case _ => st
  }

  /** The walk of a sequence of elements, in order. */
  function Walked(es: seq<Element>, st: State, marker: string): State
    decreases es
  {
    if es == [] then st
    else WalkedElement(es[|es| - 1], Walked(es[..|es| - 1], st, marker), marker)
  }

  /** The walk of one element: its callbacks, then its children. */
  function WalkedElement(e: Element, st: State, marker: string): State
    decreases e
  {
    var st' := Visit(e, st, marker);
    match e
    case ServiceDecl(_, es) => Walked(es, st', marker)
    case Message(_, _, es) => Walked(es, st', marker)
    case Other(es) => Walked(es, st', marker)
    case _ => st'
  }

  /** The walk only appends: the services and models already built are
      kept, in order. */
  lemma {:induction false} WalkedGrows(es: seq<Element>, st: State, marker: string)
    ensures st.services <= Walked(es, st, marker).services
    ensures st.models <= Walked(es, st, marker).models
    decreases es
  {
    if es != [] {
      var mid := Walked(es[..|es| - 1], st, marker);
      WalkedGrows(es[..|es| - 1], st, marker);
      WalkedElementGrows(es[|es| - 1], mid, marker);
    }
  }

  /** One element's walk only appends. */
  lemma {:induction false} WalkedElementGrows(e: Element, st: State, marker: string)
    ensures st.services <= WalkedElement(e, st, marker).services
    ensures st.models <= WalkedElement(e, st, marker).models
    decreases e
  {
    var st' := Visit(e, st, marker);
    assert st.services <= st'.services && st.models <= st'.models;
    match e
    case ServiceDecl(_, es) => WalkedGrows(es, st', marker);
    case Message(_, _, es) => WalkedGrows(es, st', marker);
    case Other(es) => WalkedGrows(es, st', marker);
    case _ =>
  }

  // ---------------------------------------------------------------------
  // The walk as a fold over the elements in pre-order
  // ---------------------------------------------------------------------

  /** Every element of `es` and of their descendants, in visiting order. */
  function Preorder(es: seq<Element>): seq<Element>
    decreases es
  {
    if es == [] then [] else Preorder(es[..|es| - 1]) + PreorderElement(es[|es| - 1])
  }

  function PreorderElement(e: Element): seq<Element>
    decreases e
  {
    match e
    case ServiceDecl(_, es) => [e] + Preorder(es)
    case Message(_, _, es) => [e] + Preorder(es)
    case Other(es) => [e] + Preorder(es)
    case _ => [e]
  }

  /** The callbacks run on each element of a flat sequence, in order. */
  function Fold(flat: seq<Element>, st: State, marker: string): State
  {
    if flat == [] then st else Visit(flat[|flat| - 1], Fold(flat[..|flat| - 1], st, marker), marker)
  }

  lemma {:induction false} FoldAppend(a: seq<Element>, b: seq<Element>, st: State, marker: string)
    ensures Fold(a + b, st, marker) == Fold(b, Fold(a, st, marker), marker)
  {
    if b == [] {
      assert a + b == a;
    } else {
      FoldAppend(a, b[..|b| - 1], st, marker);
      assert (a + b)[..|a + b| - 1] == a + b[..|b| - 1];
    }
  }

  /** The tree walk runs the callbacks exactly once per element, in
      pre-order. */
  lemma {:induction false} WalkedIsFold(es: seq<Element>, st: State, marker: string)
    ensures Walked(es, st, marker) == Fold(Preorder(es), st, marker)
    decreases es
  {
    if es != [] {
      var init, last := es[..|es| - 1], es[|es| - 1];
      WalkedIsFold(init, st, marker);
      WalkedElementIsFold(last, Walked(init, st, marker), marker);
      FoldAppend(Preorder(init), PreorderElement(last), st, marker);
    }
  }

  lemma {:induction false} WalkedElementIsFold(e: Element, st: State, marker: string)
    ensures WalkedElement(e, st, marker) == Fold(PreorderElement(e), st, marker)
    decreases e
  {
    assert Fold([e], st, marker) == Visit(e, st, marker);
    match e
    case ServiceDecl(_, es) =>
      WalkedIsFold(es, Visit(e, st, marker), marker);
      FoldAppend([e], Preorder(es), st, marker);
    case Message(_, _, es) =>
      WalkedIsFold(es, Visit(e, st, marker), marker);
      FoldAppend([e], Preorder(es), st, marker);
    case Other(es) =>
      WalkedIsFold(es, Visit(e, st, marker), marker);
      FoldAppend([e], Preorder(es), st, marker);
    case _ =>
  }

  // ---------------------------------------------------------------------
  // Reference characterisation of what the walk builds
  // ---------------------------------------------------------------------

  /** A `go_package` option. */
  predicate IsGoPackage(e: Element)
  {
    e.OptionDecl? && e.name == GoPackage
  }

  /** No `go_package` option follows position `i`. */
  predicate LastGoPackage(flat: seq<Element>, i: int)
  {
    forall j :: 0 <= j < |flat| && i < j ==> !IsGoPackage(flat[j])
  }

  /** The package current after `flat`: the value before the first ";" of
      the last `go_package` option in `flat`, or `pkg0` if there is none. */
  function PkgAfter(flat: seq<Element>, pkg0: string): string
  {
    if flat == [] then pkg0
    else
      var last := flat[|flat| - 1];
      if IsGoPackage(last) then UpTo(last.constant, ';') else PkgAfter(flat[..|flat| - 1], pkg0)
  }

  /** Without a `go_package` option the package stays the initial one. */
  lemma {:induction false} PkgAfterNone(flat: seq<Element>, pkg0: string)
    requires forall i :: 0 <= i < |flat| ==> !IsGoPackage(flat[i])
    ensures PkgAfter(flat, pkg0) == pkg0
  {
    if flat != [] {
      var init := flat[..|flat| - 1];
      assert forall i :: 0 <= i < |init| ==> init[i] == flat[i];
      PkgAfterNone(init, pkg0);
    }
  }

  /** The last `go_package` option sets the package: its value up to the
      first ";". */
  lemma {:induction false} PkgAfterLast(flat: seq<Element>, pkg0: string, i: int)
    requires 0 <= i < |flat| && IsGoPackage(flat[i]) && LastGoPackage(flat, i)
    ensures PkgAfter(flat, pkg0) == UpTo(flat[i].constant, ';')
  {
    var n := |flat| - 1;
    if i < n {
      var init := flat[..n];
      assert !IsGoPackage(flat[n]);
      assert forall j :: 0 <= j < n ==> init[j] == flat[j];
      PkgAfterLast(init, pkg0, i);
    }
  }

  /** The record built for the service declaration at `flat[i]`. */
  function ServiceAt(flat: seq<Element>, i: int, pkg0: string): ServiceView
    requires 0 <= i < |flat| && flat[i].ServiceDecl?
  {
    ServiceOf(PkgAfter(flat[..i], pkg0), flat[i].name, flat[i].elements)
  }

  /** The services built from `flat`: one per service declaration, in
      order, each taking the package current when it is visited. */
  function ServicesIn(flat: seq<Element>, pkg0: string): seq<ServiceView>
  {
    if flat == [] then []
    else
      var n := |flat| - 1;
      ServicesIn(flat[..n], pkg0) + (if flat[n].ServiceDecl? then [ServiceAt(flat, n, pkg0)] else [])
  }

  /** `v` is the record of some service declaration of `flat`. */
  ghost predicate FromServiceDecl(flat: seq<Element>, pkg0: string, v: ServiceView)
  {
    exists i :: 0 <= i < |flat| && flat[i].ServiceDecl? && v == ServiceAt(flat, i, pkg0)
  }

  /** A service declaration's record depends only on what precedes it. */
  lemma ServiceAtPrefix(flat: seq<Element>, n: int, i: int, pkg0: string)
    requires 0 <= i < n <= |flat| && flat[i].ServiceDecl?
    ensures ServiceAt(flat[..n], i, pkg0) == ServiceAt(flat, i, pkg0)
  {
    assert flat[..n][..i] == flat[..i];
  }

  /** The service declaration at `flat[i]` yields its record. */
  lemma ServiceAtIn(flat: seq<Element>, pkg0: string, i: int)
    requires 0 <= i < |flat| && flat[i].ServiceDecl?
    ensures ServiceAt(flat, i, pkg0) in ServicesIn(flat, pkg0)
    decreases |flat|, 1
  {
    if i < |flat| - 1 {
      ServiceBeforeLastIn(flat, pkg0, i);
    } else {
      assert ServicesIn(flat, pkg0) == ServicesIn(flat[..i], pkg0) + [ServiceAt(flat, i, pkg0)];
    }
  }

  /** A declaration before the last element keeps its record in the
      services of the shorter prefix, and so in those of `flat`. */
  lemma ServiceBeforeLastIn(flat: seq<Element>, pkg0: string, i: int)
    requires 0 <= i < |flat| - 1 && flat[i].ServiceDecl?
    ensures ServiceAt(flat, i, pkg0) in ServicesIn(flat, pkg0)
    decreases |flat|, 0
  {
    var n := |flat| - 1;
    var init := flat[..n];
    assert init[i] == flat[i];
    ServiceAtIn(init, pkg0, i);
    ServiceAtPrefix(flat, n, i, pkg0);
    assert ServicesIn(init, pkg0) <= ServicesIn(flat, pkg0);
  }

  /** Each service declaration yields its record. */
  lemma ServicesInComplete(flat: seq<Element>, pkg0: string)
    ensures forall i :: 0 <= i < |flat| && flat[i].ServiceDecl? ==> ServiceAt(flat, i, pkg0) in ServicesIn(flat, pkg0)
  {
    forall i | 0 <= i < |flat| && flat[i].ServiceDecl? ensures ServiceAt(flat, i, pkg0) in ServicesIn(flat, pkg0) {
      ServiceAtIn(flat, pkg0, i);
    }
  }

  /** Each record comes from a service declaration. */
  lemma {:induction false} ServicesInSound(flat: seq<Element>, pkg0: string)
    ensures forall v :: v in ServicesIn(flat, pkg0) ==> FromServiceDecl(flat, pkg0, v)
  {
    if flat != [] {
      var n := |flat| - 1;
      var init := flat[..n];
      ServicesInSound(init, pkg0);
      forall v | v in ServicesIn(flat, pkg0) ensures FromServiceDecl(flat, pkg0, v) {
        if v in ServicesIn(init, pkg0) {
          assert FromServiceDecl(init, pkg0, v);
          var i :| 0 <= i < |init| && init[i].ServiceDecl? && v == ServiceAt(init, i, pkg0);
          ServiceAtPrefix(flat, n, i, pkg0);
          assert flat[i] == init[i];
        } else {
          assert flat[n].ServiceDecl? && v == ServiceAt(flat, n, pkg0);
        }
      }
    }
  }

  /** The models built from `flat`: one per marked message, in order. */
  function ModelsIn(flat: seq<Element>, marker: string): seq<Model>
  {
    if flat == [] then []
    else
      var n := |flat| - 1;
      ModelsIn(flat[..n], marker) + (if IsModelMessage(flat[n], marker) then [ModelOf(flat[n])] else [])
  }

  /** Each marked message yields its model, and each model comes from a
      marked message. */
  lemma {:induction false} ModelsInSpec(flat: seq<Element>, marker: string)
    ensures forall i :: 0 <= i < |flat| && IsModelMessage(flat[i], marker) ==> ModelOf(flat[i]) in ModelsIn(flat, marker)
    ensures forall m :: m in ModelsIn(flat, marker) ==>
      exists i :: 0 <= i < |flat| && IsModelMessage(flat[i], marker) && m == ModelOf(flat[i])
  {
    if flat != [] {
      var n := |flat| - 1;
      var init := flat[..n];
      assert forall i :: 0 <= i < n ==> init[i] == flat[i];
      ModelsInSpec(init, marker);
    }
  }

  /** The fold splits into its three independent parts. */
  lemma {:induction false} FoldParts(flat: seq<Element>, st: State, marker: string)
    ensures Fold(flat, st, marker) ==
      State(PkgAfter(flat, st.pkg), st.services + ServicesIn(flat, st.pkg), st.models + ModelsIn(flat, marker))
  {
    if flat == [] {
      assert st.services + [] == st.services && st.models + [] == st.models;
    } else {
      var n := |flat| - 1;
      FoldParts(flat[..n], st, marker);
      assert flat[..n] == flat[..n][..n];
    }
  }

  /** What the walk of a whole schema builds, stated over its elements in
      pre-order. */
  lemma WalkResult(tree: seq<Element>, marker: string)
    ensures Walked(tree, Initial, marker).services == ServicesIn(Preorder(tree), "")
    ensures Walked(tree, Initial, marker).models == ModelsIn(Preorder(tree), marker)
  {
    WalkedIsFold(tree, Initial, marker);
    FoldParts(Preorder(tree), Initial, marker);
  }

  /** Every service the walk builds has project = package up to the first
      "/", no flag set, and methods whose requests and replies contain no
      dot; so the business-logic pass never raises its empty-message flag. */
  lemma WalkedServicesNeverUseEmpty(tree: seq<Element>, marker: string)
    ensures forall v :: v in Walked(tree, Initial, marker).services ==>
      v.project == UpTo(v.package, '/') && !v.googleEmpty && !v.useIO && !v.useContext &&
      !BizFlags(v).googleEmpty
  {
    WalkResult(tree, marker);
    var flat := Preorder(tree);
    ServicesInSound(flat, "");
    var vs := ServicesIn(flat, "");
    forall v | v in vs
      ensures v.project == UpTo(v.package, '/') && !v.googleEmpty && !v.useIO && !v.useContext && !BizFlags(v).googleEmpty
    {
      assert FromServiceDecl(flat, "", v);
      var i :| 0 <= i < |flat| && flat[i].ServiceDecl? && v == ServiceAt(flat, i, "");
      MethodsOfSpec(flat[i].name, flat[i].elements);
      DotlessNeverEmpty(v.methods, v);
    }
  }

  // ---------------------------------------------------------------------
  // The walk as the source runs it
  // ---------------------------------------------------------------------

  /** The variables the walk callbacks of `run` share: the current package,
      the services built so far and the models built so far. */
  class Builder {
    const modelComment: string
    var pkg: string
    var services: seq<Service>
    var models: Models

    /** Each service record is built once. */
    ghost predicate Valid()
      reads this
    {
      forall i, j :: 0 <= i < j < |services| ==> services[i] != services[j]
    }

    /** The value of the shared variables. */
    ghost function Current(): State
      reads this, services
    {
      State(pkg, Views(services), models.models)
    }

    constructor (modelComment: string)
      ensures Valid() && Current() == Initial && services == []
      ensures this.modelComment == modelComment
    {
      this.modelComment := modelComment;
      pkg := "";
      services := [];
      models := Models([]);
    }

    /** The option callback: a `go_package` option sets the package. */
    method OnOption(o: Element)
      requires o.OptionDecl? && Valid()
      modifies this
      ensures Valid() && Current() == Visit(o, old(Current()), modelComment)
      ensures services == old(services)
    {
      if o.name == GoPackage {
        pkg := UpTo(o.constant, ';');
      }
    }

    /** The service callback: a new record with the current package, the
        normalised name and one method per direct RPC. */
    method OnService(s: Element)
      requires s.ServiceDecl? && Valid()
      modifies this
      ensures Valid() && Current() == Visit(s, old(Current()), modelComment)
      ensures |services| == |old(services)| + 1 && services[..|old(services)|] == old(services)
      ensures fresh(services[|old(services)|])
    {
      var project := UpTo(pkg, '/');
      var cs := new Service(project, pkg, ServiceName(s.name));
      for i := 0 to |s.elements|
        modifies cs
        invariant cs.View() == ServiceOf(pkg, s.name, s.elements[..i])
      {
        assert s.elements[..i + 1][..i] == s.elements[..i];
        var e := s.elements[i];
        if !e.Rpc? {
          continue;
        }
        cs.methods := cs.methods + [Method(ServiceName(s.name), ServiceName(e.name), ParametersName(e.requestType),
                                           ParametersName(e.returnsType), GetMethodType(e.streamsRequest, e.streamsReturns))];
      }
      assert s.elements[..|s.elements|] == s.elements;
      services := services + [cs];
      assert services[..|services| - 1] == old(services);
    }

    /** The message callback: a message whose comment has a line containing
        the marker becomes a model with its direct normal fields. */
    method OnMessage(m: Element)
      requires m.Message? && Valid()
      modifies this
      ensures Valid() && Current() == Visit(m, old(Current()), modelComment)
      ensures services == old(services)
    {
      var isModel := false;
      if m.comment.Some? {
        var comments := m.comment.value;
        for i := 0 to |comments|
          invariant isModel <==> exists j :: 0 <= j < i && Contains(comments[j], modelComment)
        {
          if Contains(comments[i], modelComment) {
            isModel := true;
          }
        }
        if !isModel {
          return;
        }
        var model := Model(m.name, []);
        for i := 0 to |m.elements|
          invariant model == Model(m.name, FieldsOf(m.elements[..i]))
        {
          assert m.elements[..i + 1][..i] == m.elements[..i];
          var e := m.elements[i];
          if e.NormalField? {
            model := model.(fields := model.fields + [Field(FieldName(e.name), e.fieldType, e.repeated)]);
          }
        }
        assert m.elements[..|m.elements|] == m.elements;
        models := models.(models := models.models + [model]);
      }
    }

    /** The walk over a sequence of elements. */
    method Walk(es: seq<Element>)
      requires Valid()
      modifies this
      decreases es, 2
      ensures Valid() && Current() == Walked(es, old(Current()), modelComment)
      ensures |old(services)| <= |services| && services[..|old(services)|] == old(services)
      ensures forall k :: |old(services)| <= k < |services| ==> fresh(services[k])
    {
      for i := 0 to |es|
        invariant Valid() && Current() == Walked(es[..i], old(Current()), modelComment)
        invariant |old(services)| <= |services| && services[..|old(services)|] == old(services)
        invariant forall k :: |old(services)| <= k < |services| ==> fresh(services[k])
      {
        assert es[..i + 1][..i] == es[..i];
        ghost var mid := services;
        WalkElement(es[i]);
        assert forall k :: |old(services)| <= k < |mid| ==> services[k] == mid[k];
      }
      assert es[..|es|] == es;
    }

    /** The walk of one element: the callbacks for its kind, then its
        children. */
    method WalkElement(e: Element)
      requires Valid()
      modifies this
      decreases e, 1
      ensures Valid() && Current() == WalkedElement(e, old(Current()), modelComment)
      ensures |old(services)| <= |services| && services[..|old(services)|] == old(services)
      ensures forall k :: |old(services)| <= k < |services| ==> fresh(services[k])
    {
      match e {
        case OptionDecl(_, _) => OnOption(e);
        case ServiceDecl(_, _) => WalkService(e);
        case Message(_, _, es) => OnMessage(e); Walk(es);
        case Other(es) => Walk(es);
        case _ =>
      }
    }

    /** A service declaration: its callback, then its children. */
    method WalkService(e: Element)
      requires e.ServiceDecl? && Valid()
      modifies this
      decreases e, 0
      ensures Valid() && Current() == WalkedElement(e, old(Current()), modelComment)
      ensures |old(services)| <= |services| && services[..|old(services)|] == old(services)
      ensures forall k :: |old(services)| <= k < |services| ==> fresh(services[k])
    {
      OnService(e);
      ghost var mid := services;
      Walk(e.elements);
      assert forall k :: |old(services)| <= k < |mid| ==> services[k] == mid[k];
    }
  }

  /** The walk part of `run`: the services and the models of a parsed
      schema. Every service record is new and appears once. */
  method Build(tree: seq<Element>, modelComment: string) returns (services: seq<Service>, models: Models)
    ensures Views(services) == Walked(tree, Initial, modelComment).services
    ensures models.models == Walked(tree, Initial, modelComment).models
    ensures forall i, j :: 0 <= i < j < |services| ==> services[i] != services[j]
    ensures forall i :: 0 <= i < |services| ==> fresh(services[i])
  {
    var b := new Builder(modelComment);
    b.Walk(tree);
    services, models := b.services, b.models;
  }
}
