/** `Vao` (include/anki/gl/Vao.h): a vertex array object with a
    per-thread record of which one is bound, so that binding the bound one
    again, or unbinding one that is not bound, costs no GL call. The GL
    calls a VAO makes are recorded in a ghost log; the thread-local
    `Vao::current` is a field of one `BindingTracker` object. */
module VertexArrays {

  /** The GL calls of this component. */
  datatype GlCall =
    | GenVertexArrays(name: nat)
    | BindVertexArray(name: nat)
    | DeleteVertexArrays(name: nat)

  /** The vertex array name GL has bound after `calls`, starting from
      the default binding 0. */
  function DeviceBinding(calls: seq<GlCall>): (name: nat)
    ensures calls == [] ==> name == 0
    ensures name != 0 ==> exists i :: 0 <= i < |calls| && calls[i] == BindVertexArray(name)
  {
    if calls == [] then 0
    else match calls[|calls| - 1]
      case BindVertexArray(n) => n
      case _ => DeviceBinding(calls[..|calls| - 1])
  }

  /** Appending a call that is not a bind leaves GL's binding as it was. */
  lemma {:induction false} DeviceBindingAfterOther(calls: seq<GlCall>, c: GlCall)
    requires !c.BindVertexArray?
    ensures DeviceBinding(calls + [c]) == DeviceBinding(calls)
  {
    assert (calls + [c])[..|calls|] == calls;
  }

  /** Number of binds among `calls`: the cost the tracker is there to
      save. */
  function BindCount(calls: seq<GlCall>): (n: nat)
    ensures n <= |calls|
  {
    if calls == [] then 0
    else BindCount(calls[..|calls| - 1]) + (if calls[|calls| - 1].BindVertexArray? then 1 else 0)
  }

  lemma {:induction false} BindCountAppend(calls: seq<GlCall>, more: seq<GlCall>)
    ensures BindCount(calls + more) == BindCount(calls) + BindCount(more)
    decreases |more|
  {
    if more == [] {
      assert calls + more == calls;
    } else {
      var last := more[|more| - 1];
      assert (calls + more)[..|calls + more| - 1] == calls + more[..|more| - 1];
      BindCountAppend(calls, more[..|more| - 1]);
    }
  }

  /** The thread's `Vao::current` together with the log of GL calls the
      thread has made. */
  class BindingTracker {
    var current: Vao?
    ghost var calls: seq<GlCall>

    /** What the tracker believes is bound is what GL has bound: the
        current VAO's name, or 0 when none is current. */
    ghost predicate Coherent()
      reads this, current
    {
      DeviceBinding(calls) == if current == null then 0 else current.glId
    }

    constructor ()
      ensures current == null && calls == []
      ensures Coherent()
    {
      current := null;
      calls := [];
    }
  }

  class Vao {
    /** The GL name; 0 until `Create`. */
    var glId: nat
    /** Whether `create` has run on this VAO. */
    ghost var generated: bool

    /** The VAO holds a GL name exactly once `create` has run. */
    ghost predicate Valid()
      reads this
    {
      generated <==> glId != 0
    }

    /** The default constructor: no GL name yet. */
    constructor ()
      ensures Valid() && !generated
      ensures glId == 0 && !IsCreated()
    {
      glId := 0;
      generated := false;
    }

    /** `isCreated`: whether the VAO holds a GL name, which is exactly
        whether `create` has run on it. */
    predicate IsCreated(): (created: bool)
      reads this
      requires Valid()
      ensures created <==> generated
    {
      glId != 0
    }

    /** `getGlId`: only for a created VAO, whose name is never 0. */
    function GetGlId(): (id: nat)
      reads this
      requires Valid() && IsCreated()
      ensures id != 0 && id == glId
    {
      glId
    }

    /** `create`: `glGenVertexArrays` hands out `name`, which GL never
        makes 0. */
    method Create(tracker: BindingTracker, name: nat)
      requires Valid() && !IsCreated()
      requires name != 0
      modifies this, tracker`calls
      ensures Valid() && generated && IsCreated() && glId == name
      ensures tracker.calls == old(tracker.calls) + [GenVertexArrays(name)]
      ensures tracker.current == old(tracker.current)
      ensures old(tracker.Coherent()) && tracker.current != this ==> tracker.Coherent()
    {
      ghost var before := tracker.calls;
      ghost var bound := if tracker.current == null then 0 else tracker.current.glId;
      DeviceBindingAfterOther(before, GenVertexArrays(name));
      glId := name;
      generated := true;
      tracker.calls := before + [GenVertexArrays(name)];
      assert tracker.current != this ==> bound == if tracker.current == null then 0 else tracker.current.glId;
    }

    /** `bind`: one GL bind, and only when this VAO is not already the
        current one. */
    method Bind(tracker: BindingTracker)
      modifies tracker
      ensures tracker.current == this
      ensures tracker.calls == if old(tracker.current) == this then old(tracker.calls)
                               else old(tracker.calls) + [BindVertexArray(glId)]
      ensures old(tracker.Coherent()) ==> tracker.Coherent()
    {
      if tracker.current != this {
        tracker.calls := tracker.calls + [BindVertexArray(glId)];
        tracker.current := this;
      }
    }

    /** `unbind`: binds 0 only when this VAO is the current one; otherwise
        nothing happens. */
    method Unbind(tracker: BindingTracker)
      modifies tracker
      ensures old(tracker.current) == this ==>
        tracker.current == null && tracker.calls == old(tracker.calls) + [BindVertexArray(0)]
      ensures old(tracker.current) != this ==>
        tracker.current == old(tracker.current) && tracker.calls == old(tracker.calls)
      ensures tracker.current != this
      ensures old(tracker.Coherent()) ==> tracker.Coherent()
    {
      if tracker.current == this {
        tracker.calls := tracker.calls + [BindVertexArray(0)];
        tracker.current := null;
      }
    }

    /** `destroy`: unbinds this VAO if it is current, then deletes its
        name. The name is not reset, so the VAO still counts as created. */
    method Destroy(tracker: BindingTracker)
      requires Valid() && IsCreated()
      modifies tracker
      ensures tracker.current != this
      ensures old(tracker.current) == this ==>
        && tracker.current == null
        && tracker.calls == old(tracker.calls) + [BindVertexArray(0), DeleteVertexArrays(glId)]
      ensures old(tracker.current) != this ==>
        && tracker.current == old(tracker.current)
        && tracker.calls == old(tracker.calls) + [DeleteVertexArrays(glId)]
      ensures old(tracker.Coherent()) ==> tracker.Coherent()
    {
      Unbind(tracker);
      DeviceBindingAfterOther(tracker.calls, DeleteVertexArrays(glId));
      tracker.calls := tracker.calls + [DeleteVertexArrays(glId)];
    }
  }

  /** Binding a VAO before it is created binds GL name 0 and makes it
      current. `create` then gives it a name but leaves `current` alone, so
      the next `bind` makes no call and GL keeps 0 bound while the tracker
      believes the new name is. */
  method BindBeforeCreate(vao: Vao, tracker: BindingTracker, name: nat)
    requires vao.Valid() && !vao.IsCreated() && name != 0
    requires tracker.current != vao
    modifies vao, tracker
    ensures vao.glId == name && tracker.current == vao
    ensures tracker.calls == old(tracker.calls) + [BindVertexArray(0), GenVertexArrays(name)]
    ensures DeviceBinding(tracker.calls) == 0 != vao.glId
    ensures !tracker.Coherent()
  {
    vao.Bind(tracker);
    ghost var afterBind := tracker.calls;
    assert DeviceBinding(afterBind) == 0;
    vao.Create(tracker, name);
    DeviceBindingAfterOther(afterBind, GenVertexArrays(name));
    vao.Bind(tracker);
  }

  /** Binding the same VAO twice in a row makes one GL call at most, and
      none when it was already current. */
  method BindTwice(vao: Vao, tracker: BindingTracker)
    modifies tracker
    ensures tracker.current == vao
    ensures BindCount(tracker.calls) <= BindCount(old(tracker.calls)) + 1
    ensures old(tracker.current) == vao ==> tracker.calls == old(tracker.calls)
    ensures old(tracker.current) != vao ==> tracker.calls == old(tracker.calls) + [BindVertexArray(vao.glId)]
  {
    vao.Bind(tracker);
    vao.Bind(tracker);
    BindCountAppend(old(tracker.calls), tracker.calls[|old(tracker.calls)|..]);
    assert old(tracker.calls) + tracker.calls[|old(tracker.calls)|..] == tracker.calls;
  }
}
