/**
 * The service record and the flag pass of the business-logic generator:
 * before rendering, the methods of a service decide whether the generated
 * file needs the empty-message package, the io package and the context
 * package.
 */
module Biz {
  import opened Wrappers
  import opened Domain

  /** The well-known empty message. */
  const Empty := "google.protobuf.Empty"

  /** A method whose request or reply makes the file use the empty message. */
  predicate NeedsEmpty(m: Method)
  {
    (m.methodType == Unary && (m.request == Empty || m.reply == Empty)) ||
    (m.methodType == ReturnsStreams && m.request == Empty)
  }

  /** A method whose client stream makes the file use the io package. */
  predicate NeedsIO(m: Method)
  {
    m.methodType == TwoWayStreams || m.methodType == RequestStreams
  }

  /** A unary method makes the file use the context package. */
  predicate NeedsContext(m: Method)
  {
    m.methodType == Unary
  }

  /** One iteration of the flag loop: raise the flags `m` needs. */
  function RaiseFlags(w: ServiceView, m: Method): (r: ServiceView)
    ensures r.project == w.project && r.package == w.package
    ensures r.service == w.service && r.methods == w.methods
    ensures r.googleEmpty == (w.googleEmpty || NeedsEmpty(m))
    ensures r.useIO == (w.useIO || NeedsIO(m))
    ensures r.useContext == (w.useContext || NeedsContext(m))
  {
    w.(googleEmpty := if NeedsEmpty(m) then true else w.googleEmpty,
       useIO := if NeedsIO(m) then true else w.useIO,
       useContext := if NeedsContext(m) then true else w.useContext)
  }

  /** The service value after the flag loop has visited `ms`, starting from
      `v`: only the flags change. */
  function ScanFlags(ms: seq<Method>, v: ServiceView): (r: ServiceView)
    ensures r.project == v.project && r.package == v.package
    ensures r.service == v.service && r.methods == v.methods
  {
    if ms == [] then v
    else
      RaiseFlags(ScanFlags(ms[..|ms| - 1], v), ms[|ms| - 1])
  }

  /** A flag is raised exactly when it was already set or some visited
      method needs it; a raised flag is never cleared. */
  lemma {:induction false} ScanFlagsSpec(ms: seq<Method>, v: ServiceView)
    ensures ScanFlags(ms, v).googleEmpty == (v.googleEmpty || exists i :: 0 <= i < |ms| && NeedsEmpty(ms[i]))
    ensures ScanFlags(ms, v).useIO == (v.useIO || exists i :: 0 <= i < |ms| && NeedsIO(ms[i]))
    ensures ScanFlags(ms, v).useContext == (v.useContext || exists i :: 0 <= i < |ms| && NeedsContext(ms[i]))
  {
    if ms != [] {
      var n := |ms| - 1;
      ScanFlagsSpec(ms[..n], v);
      assert forall i :: 0 <= i < n ==> ms[..n][i] == ms[i];
    }
  }

  /** The service value after the whole loop of `executeBiz`. */
  function BizFlags(v: ServiceView): ServiceView
  {
    ScanFlags(v.methods, v)
  }

  /** Running the flag pass a second time changes nothing. */
  lemma BizFlagsIdempotent(v: ServiceView)
    ensures BizFlags(BizFlags(v)) == BizFlags(v)
  {
    ScanFlagsSpec(v.methods, v);
    ScanFlagsSpec(v.methods, BizFlags(v));
  }

  /** A method whose request and reply contain no dot never needs the empty
      message, whose name does contain one. */
  lemma DotlessNeverEmpty(ms: seq<Method>, v: ServiceView)
    requires forall i :: 0 <= i < |ms| ==> '.' !in ms[i].request && '.' !in ms[i].reply
    ensures ScanFlags(ms, v).googleEmpty == v.googleEmpty
  {
    ScanFlagsSpec(ms, v);
    assert Empty[6] == '.';
    forall i | 0 <= i < |ms| ensures !NeedsEmpty(ms[i]) {
      assert ms[i].request != Empty && ms[i].reply != Empty;
    }
  }

  /** A service record (a pointer in the source): `executeBiz` sets its
      flags in place before rendering it. */
  class Service {
    var project: string
    var package: string
    var service: string
    var methods: seq<Method>
    var googleEmpty: bool
    var useIO: bool
    var useContext: bool

    /** The current value of the record. */
    function View(): ServiceView
      reads this
    {
      ServiceView(project, package, service, methods, googleEmpty, useIO, useContext)
    }

    /** A record with no methods and no flags set, as the schema walk
        allocates it. */
    constructor (project: string, package: string, service: string)
      ensures View() == ServiceView(project, package, service, [], false, false, false)
    {
      this.project := project;
      this.package := package;
      this.service := service;
      this.methods := [];
      this.googleEmpty := false;
      this.useIO := false;
      this.useContext := false;
    }

    /** `executeBiz`: raise the flags the methods need, then render the
        business-logic file with `render` (the template library, which fails
        on a malformed template or a missing field). On failure it returns
        the error and no bytes; the flags are set either way. */
    method ExecuteBiz(render: ServiceView -> Result<Bytes, string>) returns (r: Result<Bytes, string>)
      modifies this
      ensures View() == BizFlags(old(View()))
      ensures r == render(View())
    {
      var i := 0;
      while i < |methods|
        invariant 0 <= i <= |methods|
        invariant View() == ScanFlags(methods[..i], old(View()))
      {
        var m := methods[i];
        ghost var before := View();
        if (m.methodType == Unary && (m.request == Empty || m.reply == Empty)) ||
           (m.methodType == ReturnsStreams && m.request == Empty) {
          googleEmpty := true;
        }
        if m.methodType == TwoWayStreams || m.methodType == RequestStreams {
          useIO := true;
        }
        if m.methodType == Unary {
          useContext := true;
        }
        assert View() == RaiseFlags(before, m);
        assert methods[..i + 1][..i] == methods[..i];
        i := i + 1;
      }
      assert methods[..i] == methods;
      r := render(View());
    }
  }

  /** The values of a sequence of records. */
  function Views(ss: seq<Service>): (vs: seq<ServiceView>)
    reads ss
    ensures |vs| == |ss|
    ensures forall i :: 0 <= i < |ss| ==> vs[i] == ss[i].View()
  {
    if ss == [] then [] else Views(ss[..|ss| - 1]) + [ss[|ss| - 1].View()]
  }
}
