/** The graphics device seen as a ledger of live objects.

    Only the objects that the debug-lines pass creates and destroys itself are
    tracked: pipeline layouts, shader modules and graphics pipelines. Every
    creation and destruction is appended to a ghost history, and the set of live
    handles is always the one obtained by replaying that history (`Apply`).
    Calls that can fail on a real device take the failure they should report as
    a parameter. */
module Ledger {

  datatype Option<T> = None | Some(value: T)

  /** An opaque construction error, propagated unchanged to the caller. */
  datatype Error = Error(reason: string)

  datatype Result<T> = Ok(value: T) | Err(error: Error)

  datatype Kind = DescriptorSetLayout | PipelineLayout | ShaderModule | GraphicsPipeline

  /** An opaque GPU object handle. */
  datatype Handle = Handle(kind: Kind, id: nat)

  /** One entry of the device history; `uses` lists the objects a new object was built from. */
  datatype Event =
    | Created(handle: Handle, uses: seq<Handle>)
    | Destroyed(handle: Handle)

  /** The effect of one event on a set of live handles. */
  function Step(live: set<Handle>, e: Event): set<Handle>
  {
    match e
    case Created(h, _) => live + {h}
    case Destroyed(h) => live - {h}
  }

  /** The live set after replaying `events`, in order, on top of `live`. */
  function Apply(live: set<Handle>, events: seq<Event>): set<Handle>
    decreases |events|
  {
    if events == [] then live else Apply(Step(live, events[0]), events[1..])
  }

  /** Replaying two histories one after the other is replaying their concatenation. */
  lemma {:induction false} ApplyAppend(live: set<Handle>, a: seq<Event>, b: seq<Event>)
    ensures Apply(live, a + b) == Apply(Apply(live, a), b)
    decreases |a|
  {
    if a == [] {
      assert a + b == b;
    } else {
      assert (a + b)[0] == a[0];
      assert (a + b)[1..] == a[1..] + b;
      ApplyAppend(Step(live, a[0]), a[1..], b);
    }
  }

  /** Replaying one more event is one more step. */
  lemma ApplySnoc(live: set<Handle>, events: seq<Event>, e: Event)
    ensures Apply(live, events + [e]) == Step(Apply(live, events), e)
  {
    ApplyAppend(live, events, [e]);
    assert [e][1..] == [];
  }

  class Device {
    /** The objects currently alive on the device. */
    var live: set<Handle>
    /** The identifier the next created object receives. */
    var next: nat
    /** Every creation and destruction, oldest first. */
    ghost var history: seq<Event>

    /** The live objects are those the history leaves alive, and every one of them
        got its identifier before `next`, so new objects are fresh. */
    ghost predicate Valid()
      reads this
    {
      && live == Apply({}, history)
      && forall h | h in live :: h.id < next
    }

    constructor ()
      ensures Valid() && live == {} && history == []
    {
      live := {};
      next := 0;
      history := [];
    }

    /** Creates a new object of kind `kind` built from `uses`. */
    method Allocate(kind: Kind, uses: seq<Handle>) returns (h: Handle)
      requires Valid()
      modifies this
      ensures Valid()
      ensures h.kind == kind && h !in old(live)
      ensures history == old(history) + [Created(h, uses)]
      ensures live == old(live) + {h}
    {
      h := Handle(kind, next);
      ApplySnoc({}, history, Created(h, uses));
      history := history + [Created(h, uses)];
      live := live + {h};
      next := next + 1;
    }

    /** Destroys a live object; destroying an object that is not live is not allowed. */
    method Release(h: Handle)
      requires Valid() && h in live
      modifies this
      ensures Valid()
      ensures history == old(history) + [Destroyed(h)]
      ensures live == old(live) - {h}
    {
      ApplySnoc({}, history, Destroyed(h));
      history := history + [Destroyed(h)];
      live := live - {h};
    }

    /** Creates a pipeline layout from descriptor-set layouts, unless `fault` says it fails. */
    method CreatePipelineLayout(setLayouts: seq<Handle>, fault: Option<Error>) returns (r: Result<Handle>)
      requires Valid()
      modifies this
      ensures Valid()
      ensures fault.Some? ==> r == Err(fault.value) && history == old(history) && live == old(live)
      ensures fault.None? ==>
        && r.Ok? && r.value.kind == PipelineLayout && r.value !in old(live)
        && history == old(history) + [Created(r.value, setLayouts)]
        && live == old(live) + {r.value}
    {
      if fault.Some? {
        r := Err(fault.value);
      } else {
        var h := Allocate(PipelineLayout, setLayouts);
        r := Ok(h);
      }
    }

    /** Loads a shader module. */
    method CreateShaderModule() returns (h: Handle)
      requires Valid()
      modifies this
      ensures Valid()
      ensures h.kind == ShaderModule && h !in old(live)
      ensures history == old(history) + [Created(h, [])]
      ensures live == old(live) + {h}
    {
      h := Allocate(ShaderModule, []);
    }

    /** Builds a graphics pipeline over a live layout and two live shader modules,
        unless `fault` says the build fails, in which case nothing is created. */
    method BuildGraphicsPipeline(layout: Handle, vertex: Handle, fragment: Handle, fault: Option<Error>)
      returns (r: Result<Handle>)
      requires Valid()
      requires layout in live && vertex in live && fragment in live
      modifies this
      ensures Valid()
      ensures fault.Some? ==> r == Err(fault.value) && history == old(history) && live == old(live)
      ensures fault.None? ==>
        && r.Ok? && r.value.kind == GraphicsPipeline && r.value !in old(live)
        && history == old(history) + [Created(r.value, [layout, vertex, fragment])]
        && live == old(live) + {r.value}
    {
      if fault.Some? {
        r := Err(fault.value);
      } else {
        var h := Allocate(GraphicsPipeline, [layout, vertex, fragment]);
        r := Ok(h);
      }
    }

    method DestroyShaderModule(h: Handle)
      requires Valid() && h in live && h.kind == ShaderModule
      modifies this
      ensures Valid()
      ensures history == old(history) + [Destroyed(h)]
      ensures live == old(live) - {h}
    {
      Release(h);
    }

    method DestroyPipelineLayout(h: Handle)
      requires Valid() && h in live && h.kind == PipelineLayout
      modifies this
      ensures Valid()
      ensures history == old(history) + [Destroyed(h)]
      ensures live == old(live) - {h}
    {
      Release(h);
    }

    method DestroyGraphicsPipeline(h: Handle)
      requires Valid() && h in live && h.kind == GraphicsPipeline
      modifies this
      ensures Valid()
      ensures history == old(history) + [Destroyed(h)]
      ensures live == old(live) - {h}
    {
      Release(h);
    }
  }
}
