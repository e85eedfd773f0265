/** The renderer's COM handles and their release discipline (src/d3drenderer.h,
    src/d3drenderer.cpp): every pointer field starts null, `retire` releases a
    non-null pointer once and nulls it, and `cleanUp` retires every field.

    A handle is an identity issued once; `Store` is the value of all handle
    slots together with the log of every Release call made so far. */
module Resources {
  import opened Wrappers

  type HandleId = nat

  /** The COM pointer members of D3DRenderer. */
  datatype Field =
    | Device | Context | SwapChain
    | BBufferTarget | BlendState | DepthTex | DepthTexView
    | CubeVertBuf | CubeIdxBuf | CubeModelBuf
    | SpriteVertBuf | FontVertBuf | SpriteInstBuf | ProjBuf
    | CubeVS | SpriteVS | FontVS | PS | CombiPS | SpriteIL | CubeIL
    | HeartTexView | WoodTexView | FontTexView | TexSampler

  /** COM pointers held in local variables of the setup code, which `retire`
      is applied to as well: the back-buffer texture of deviceSetup, and the
      shader and error blobs of compileShader / shaderSetup. */
  datatype Local = BackBufferTex | ShaderBlob | ErrorBlob

  /** Anything `retire` can be handed a reference to. */
  datatype Slot = Member(field: Field) | Temp(local: Local)

  datatype Store = Store(slots: map<Slot, Option<HandleId>>, released: seq<HandleId>, next: nat)

  /** The order in which cleanUp retires the fields, in four groups. */
  const CleanupViews: seq<Field> := [TexSampler, FontTexView, WoodTexView, HeartTexView, BlendState]
  const CleanupBuffers: seq<Field> := [ProjBuf, SpriteInstBuf, SpriteVertBuf, FontVertBuf, CubeModelBuf, CubeIdxBuf, CubeVertBuf]
  const CleanupShaders: seq<Field> := [SpriteIL, CubeIL, CubeVS, FontVS, SpriteVS, CombiPS, PS]
  const CleanupDevice: seq<Field> := [DepthTexView, DepthTex, BBufferTarget, SwapChain, Context, Device]
  const CleanupOrder: seq<Field> := CleanupViews + CleanupBuffers + CleanupShaders + CleanupDevice

  const Locals: seq<Local> := [BackBufferTex, ShaderBlob, ErrorBlob]

  predicate NoDuplicates<T(==)>(s: seq<T>)
  {
    forall i, j | 0 <= i < j < |s| :: s[i] != s[j]
  }

  /** Where a field stands in CleanupOrder. */
  function CleanupPosition(f: Field): nat
  {
    match f
    case TexSampler => 0 case FontTexView => 1 case WoodTexView => 2 case HeartTexView => 3
    case BlendState => 4 case ProjBuf => 5 case SpriteInstBuf => 6 case SpriteVertBuf => 7
    case FontVertBuf => 8 case CubeModelBuf => 9 case CubeIdxBuf => 10 case CubeVertBuf => 11
    case SpriteIL => 12 case CubeIL => 13 case CubeVS => 14 case FontVS => 15 case SpriteVS => 16
    case CombiPS => 17 case PS => 18 case DepthTexView => 19 case DepthTex => 20
    case BBufferTarget => 21 case SwapChain => 22 case Context => 23 case Device => 24
  }

  /** cleanUp names every field, each once. */
  lemma CleanupOrderComplete()
    ensures forall f: Field :: f in CleanupOrder
    ensures NoDuplicates(CleanupOrder)
  {
    CleanupPositions();
    forall f: Field ensures f in CleanupOrder {
      var k := CleanupPosition(f);
      if k < 5 {
        assert CleanupViews[k] == f;
      } else if k < 12 {
        assert CleanupBuffers[k - 5] == f;
      } else if k < 19 {
        assert CleanupShaders[k - 12] == f;
      } else {
        assert CleanupDevice[k - 19] == f;
      }
    }
  }

  /** CleanupPosition reads off where each entry of CleanupOrder stands. */
  lemma CleanupPositions()
    ensures forall i | 0 <= i < |CleanupOrder| :: CleanupPosition(CleanupOrder[i]) == i
  {
    assert forall i | 0 <= i < 5 :: CleanupPosition(CleanupViews[i]) == i;
    assert forall i | 0 <= i < 7 :: CleanupPosition(CleanupBuffers[i]) == i + 5;
    assert forall i | 0 <= i < 7 :: CleanupPosition(CleanupShaders[i]) == i + 12;
    assert forall i | 0 <= i < 6 :: CleanupPosition(CleanupDevice[i]) == i + 19;
  }

  /** The slot a field lives in. */
  function MemberSlots(fs: seq<Field>): (ss: seq<Slot>)
    ensures |ss| == |fs| && forall i | 0 <= i < |fs| :: ss[i] == Member(fs[i])
  {
    seq(|fs|, i requires 0 <= i < |fs| => Member(fs[i]))
  }

  /** Every slot there is: one per field and one per local. */
  function AllSlots(): set<Slot>
  {
    (set f | f in CleanupOrder :: Member(f)) + (set l | l in Locals :: Temp(l))
  }

  lemma AllSlotsComplete()
    ensures forall s: Slot :: s in AllSlots()
  {
    CleanupOrderComplete();
    forall s: Slot ensures s in AllSlots() {
      match s
      case Member(f) => assert f in CleanupOrder;
      case Temp(l) => assert l == Locals[0] || l == Locals[1] || l == Locals[2];
    }
  }

  /** The store of a freshly constructed renderer: every pointer null,
      nothing released, no handle issued. */
  function Initial(): (st: Store)
    ensures forall s: Slot :: s in st.slots && st.slots[s] == None
    ensures st.released == [] && st.next == 0
  {
    AllSlotsComplete();
    Store(map s | s in AllSlots() :: None, [], 0)
  }

  /** The object invariant: every slot exists; each held handle was issued and
      has not been released; no handle is held by two slots; every released
      handle was issued and the release log has no repeats (nothing was
      released twice). */
  ghost predicate Valid(st: Store)
  {
    && (forall s: Slot :: s in st.slots)
    && (forall s | s in st.slots && st.slots[s].Some? ::
          st.slots[s].value < st.next && st.slots[s].value !in st.released)
    && (forall s, t | s in st.slots && t in st.slots && s != t && st.slots[s].Some? && st.slots[t].Some? ::
          st.slots[s].value != st.slots[t].value)
    && (forall i | 0 <= i < |st.released| :: st.released[i] < st.next)
    && NoDuplicates(st.released)
  }

  /** No local COM pointer of a set-up method is live. */
  predicate LocalsNull(st: Store)
  {
    Held(st, Temp(BackBufferTex)) == None && Held(st, Temp(ShaderBlob)) == None && Held(st, Temp(ErrorBlob)) == None
  }

  /** What the slot holds (null if it does not exist). */
  function Held(st: Store, s: Slot): Option<HandleId>
  {
    if s in st.slots then st.slots[s] else None
  }

  /** retire(obj): a null pointer is left alone; otherwise Release is called
      on it once and the pointer becomes null. */
  function Retired(st: Store, s: Slot): Store
  {
    match Held(st, s)
    case None => st
    case Some(h) => Store(st.slots[s := None], st.released + [h], st.next)
  }

  /** A creation call that stores a new handle in slot s. */
  function Acquired(st: Store, s: Slot): Store
  {
    Store(st.slots[s := Some(st.next)], st.released, st.next + 1)
  }

  /** retire applied to each slot in turn. */
  function RetireAll(st: Store, ss: seq<Slot>): Store
    decreases |ss|
  {
    if |ss| == 0 then st else RetireAll(Retired(st, ss[0]), ss[1..])
  }

  /** Retiring from position k on is retiring slot k, then the rest. */
  lemma RetireAllStep(st: Store, ss: seq<Slot>, k: nat)
    requires k < |ss|
    ensures RetireAll(st, ss[k..]) == RetireAll(Retired(st, ss[k]), ss[k + 1..])
  {
    assert ss[k..][1..] == ss[k + 1..];
  }

  /** The handles the slots hold, in slot order, skipping null ones. */
  function HeldIn(st: Store, ss: seq<Slot>): seq<HandleId>
    decreases |ss|
  {
    if |ss| == 0 then []
    else (match Held(st, ss[0]) case None => [] case Some(h) => [h]) + HeldIn(st, ss[1..])
  }

  /** retire on a null pointer changes nothing. */
  lemma RetireNull(st: Store, s: Slot)
    requires Held(st, s) == None
    ensures Retired(st, s) == st
  {
  }

  /** retire on a held handle releases exactly that handle, once (it was not
      released before), nulls the slot and touches no other slot; the
      invariant is kept. */
  lemma RetireHeld(st: Store, s: Slot)
    requires Valid(st) && Held(st, s).Some?
    ensures var st' := Retired(st, s);
      && Valid(st')
      && Held(st', s) == None
      && st'.released == st.released + [Held(st, s).value]
      && Held(st, s).value !in st.released
      && (forall t | t != s :: Held(st', t) == Held(st, t))
  {
  }

  /** retire is idempotent: retiring the same slot again is a no-op. */
  lemma RetireIdempotent(st: Store, s: Slot)
    ensures Retired(Retired(st, s), s) == Retired(st, s)
  {
  }

  /** Every retire keeps the invariant. */
  lemma RetiredValid(st: Store, s: Slot)
    requires Valid(st)
    ensures Valid(Retired(st, s))
  {
  }

  /** A creation keeps the invariant: the new handle was never issued. */
  lemma AcquiredValid(st: Store, s: Slot)
    requires Valid(st)
    ensures Valid(Acquired(st, s))
    ensures Held(Acquired(st, s), s) == Some(st.next) && st.next !in st.released
  {
  }

  /** Retiring a list of distinct slots nulls them all, leaves every other
      slot alone, keeps the invariant, and appends to the release log exactly
      the handles those slots held, in order. */
  lemma RetireAllEffect(st: Store, ss: seq<Slot>)
    requires Valid(st) && NoDuplicates(ss)
    ensures var st' := RetireAll(st, ss);
      && Valid(st')
      && (forall s | s in ss :: Held(st', s) == None)
      && (forall s | s !in ss :: Held(st', s) == Held(st, s))
      && st'.released == st.released + HeldIn(st, ss)
      && st'.next == st.next
  {
    RetireAllValid(st, ss);
    RetireAllHeld(st, ss);
  }

  /** Retiring any list of slots keeps the invariant. */
  lemma {:induction false} RetireAllValid(st: Store, ss: seq<Slot>)
    requires Valid(st)
    ensures Valid(RetireAll(st, ss))
    decreases |ss|
  {
    if |ss| > 0 {
      RetiredValid(st, ss[0]);
      RetireAllValid(Retired(st, ss[0]), ss[1..]);
    }
  }

  /** What retiring a list of distinct slots does to each slot and to the
      release log. */
  lemma {:induction false} RetireAllHeld(st: Store, ss: seq<Slot>)
    requires NoDuplicates(ss)
    ensures var st' := RetireAll(st, ss);
      && (forall s | s in ss :: Held(st', s) == None)
      && (forall s | s !in ss :: Held(st', s) == Held(st, s))
      && st'.released == st.released + HeldIn(st, ss)
      && st'.next == st.next
    decreases |ss|
  {
    if |ss| > 0 {
      NoDuplicatesTail(ss);
      RetireAllHeld(Retired(st, ss[0]), ss[1..]);
      HeldInUnaffected(st, ss[0], ss[1..]);
    }
  }

  /** Without its head, a list of distinct slots stays distinct and no longer
      holds the head; every other member is in the tail. */
  lemma NoDuplicatesTail(ss: seq<Slot>)
    requires |ss| > 0 && NoDuplicates(ss)
    ensures NoDuplicates(ss[1..]) && ss[0] !in ss[1..]
    ensures forall s | s in ss && s != ss[0] :: s in ss[1..]
  {
    forall i, j | 0 <= i < j < |ss[1..]| ensures ss[1..][i] != ss[1..][j] {
      assert ss[1..][i] == ss[i + 1] && ss[1..][j] == ss[j + 1];
    }
    forall j | 0 <= j < |ss[1..]| ensures ss[1..][j] != ss[0] {
      assert ss[1..][j] == ss[j + 1];
    }
    forall s | s in ss && s != ss[0] ensures s in ss[1..] {
      var i :| 0 <= i < |ss| && ss[i] == s;
      assert ss[1..][i - 1] == s;
    }
  }

  /** Retiring one slot does not change what the other slots hold. */
  lemma {:induction false} HeldInUnaffected(st: Store, s: Slot, ss: seq<Slot>)
    requires s !in ss
    ensures HeldIn(Retired(st, s), ss) == HeldIn(st, ss)
    decreases |ss|
  {
    if |ss| > 0 {
      assert ss[0] != s;
      HeldInUnaffected(st, s, ss[1..]);
    }
  }

  /** Retiring slots that are all null changes nothing. */
  lemma {:induction false} RetireAllOfNull(st: Store, ss: seq<Slot>)
    requires forall s | s in ss :: Held(st, s) == None
    ensures RetireAll(st, ss) == st
    decreases |ss|
  {
    if |ss| > 0 {
      assert ss[0] in ss;
      RetireAllOfNull(st, ss[1..]);
    }
  }

  /** Running the whole retire sequence twice is the same as once: the second
      pass releases nothing. */
  lemma RetireAllIdempotent(st: Store, ss: seq<Slot>)
    requires Valid(st) && NoDuplicates(ss)
    ensures RetireAll(RetireAll(st, ss), ss) == RetireAll(st, ss)
  {
    RetireAllEffect(st, ss);
    RetireAllOfNull(RetireAll(st, ss), ss);
  }

  /** The slots cleanUp retires. */
  function CleanupSlots(): seq<Slot>
  {
    MemberSlots(CleanupOrder)
  }

  /** cleanUp retires every field's slot, each once, and no local. */
  lemma CleanupSlotsSpec()
    ensures var ss := CleanupSlots();
      NoDuplicates(ss) && (forall f: Field :: Member(f) in ss) && (forall s | s in ss :: s.Member?)
  {
    CleanupOrderComplete();
    MemberSlotsCover(CleanupOrder);
  }

  lemma MemberSlotsCover(fs: seq<Field>)
    requires forall f: Field :: f in fs
    ensures forall f: Field :: Member(f) in MemberSlots(fs)
  {
    forall f: Field ensures Member(f) in MemberSlots(fs) {
      assert f in fs;
      var i :| 0 <= i < |fs| && fs[i] == f;
      assert MemberSlots(fs)[i] == Member(f);
    }
  }

  /** Retiring the first 5 slots of ss one by one. */
  lemma RetirePeel5(st: Store, ss: seq<Slot>)
    requires |ss| == 5
    ensures RetireAll(st, ss) == Retired(Retired(Retired(Retired(Retired(st, ss[0]), ss[1]), ss[2]), ss[3]), ss[4])
  {
    assert ss[0..] == ss;
    var s0 := Retired(st, ss[0]);
    RetireAllStep(st, ss, 0);
    var s1 := Retired(s0, ss[1]);
    RetireAllStep(s0, ss, 1);
    var s2 := Retired(s1, ss[2]);
    RetireAllStep(s1, ss, 2);
    var s3 := Retired(s2, ss[3]);
    RetireAllStep(s2, ss, 3);
    var s4 := Retired(s3, ss[4]);
    RetireAllStep(s3, ss, 4);
  }

  /** Retiring the first 6 slots of ss one by one. */
  lemma RetirePeel6(st: Store, ss: seq<Slot>)
    requires |ss| == 6
    ensures RetireAll(st, ss) == Retired(Retired(Retired(Retired(Retired(Retired(st, ss[0]), ss[1]), ss[2]), ss[3]), ss[4]), ss[5])
  {
    assert ss[0..] == ss;
    var s0 := Retired(st, ss[0]);
    RetireAllStep(st, ss, 0);
    var s1 := Retired(s0, ss[1]);
    RetireAllStep(s0, ss, 1);
    var s2 := Retired(s1, ss[2]);
    RetireAllStep(s1, ss, 2);
    var s3 := Retired(s2, ss[3]);
    RetireAllStep(s2, ss, 3);
    var s4 := Retired(s3, ss[4]);
    RetireAllStep(s3, ss, 4);
    var s5 := Retired(s4, ss[5]);
    RetireAllStep(s4, ss, 5);
  }

  /** Retiring the first 7 slots of ss one by one. */
  lemma RetirePeel7(st: Store, ss: seq<Slot>)
    requires |ss| == 7
    ensures RetireAll(st, ss) == Retired(Retired(Retired(Retired(Retired(Retired(Retired(st, ss[0]), ss[1]), ss[2]), ss[3]), ss[4]), ss[5]), ss[6])
  {
    assert ss[0..] == ss;
    var s0 := Retired(st, ss[0]);
    RetireAllStep(st, ss, 0);
    var s1 := Retired(s0, ss[1]);
    RetireAllStep(s0, ss, 1);
    var s2 := Retired(s1, ss[2]);
    RetireAllStep(s1, ss, 2);
    var s3 := Retired(s2, ss[3]);
    RetireAllStep(s2, ss, 3);
    var s4 := Retired(s3, ss[4]);
    RetireAllStep(s3, ss, 4);
    var s5 := Retired(s4, ss[5]);
    RetireAllStep(s4, ss, 5);
    var s6 := Retired(s5, ss[6]);
    RetireAllStep(s5, ss, 6);
  }

  /** cleanUp's retire calls on the sampler, the three texture views and the blend state. */
  function RetireViews(st: Store): Store
  {
    var s0 := Retired(st, Member(TexSampler));
    var s1 := Retired(s0, Member(FontTexView));
    var s2 := Retired(s1, Member(WoodTexView));
    var s3 := Retired(s2, Member(HeartTexView));
    var s4 := Retired(s3, Member(BlendState));
    s4
  }

  lemma RetireViewsAll(st: Store)
    ensures RetireViews(st) == RetireAll(st, MemberSlots(CleanupViews))
  {
    RetirePeel5(st, MemberSlots(CleanupViews));
  }

  /** cleanUp's retire calls on the seven buffers. */
  function RetireBuffers(st: Store): Store
  {
    var s0 := Retired(st, Member(ProjBuf));
    var s1 := Retired(s0, Member(SpriteInstBuf));
    var s2 := Retired(s1, Member(SpriteVertBuf));
    var s3 := Retired(s2, Member(FontVertBuf));
    var s4 := Retired(s3, Member(CubeModelBuf));
    var s5 := Retired(s4, Member(CubeIdxBuf));
    var s6 := Retired(s5, Member(CubeVertBuf));
    s6
  }

  lemma RetireBuffersAll(st: Store)
    ensures RetireBuffers(st) == RetireAll(st, MemberSlots(CleanupBuffers))
  {
    RetirePeel7(st, MemberSlots(CleanupBuffers));
  }

  /** cleanUp's retire calls on the input layouts and the shaders. */
  function RetireShaders(st: Store): Store
  {
    var s0 := Retired(st, Member(SpriteIL));
    var s1 := Retired(s0, Member(CubeIL));
    var s2 := Retired(s1, Member(CubeVS));
    var s3 := Retired(s2, Member(FontVS));
    var s4 := Retired(s3, Member(SpriteVS));
    var s5 := Retired(s4, Member(CombiPS));
    var s6 := Retired(s5, Member(PS));
    s6
  }

  lemma RetireShadersAll(st: Store)
    ensures RetireShaders(st) == RetireAll(st, MemberSlots(CleanupShaders))
  {
    RetirePeel7(st, MemberSlots(CleanupShaders));
  }

  /** cleanUp's retire calls on the depth view and texture, the render target, the swap chain, the context and the device. */
  function RetireDevice(st: Store): Store
  {
    var s0 := Retired(st, Member(DepthTexView));
    var s1 := Retired(s0, Member(DepthTex));
    var s2 := Retired(s1, Member(BBufferTarget));
    var s3 := Retired(s2, Member(SwapChain));
    var s4 := Retired(s3, Member(Context));
    var s5 := Retired(s4, Member(Device));
    s5
  }

  lemma RetireDeviceAll(st: Store)
    ensures RetireDevice(st) == RetireAll(st, MemberSlots(CleanupDevice))
  {
    RetirePeel6(st, MemberSlots(CleanupDevice));
  }

  /** The retire calls of cleanUp, in source order. */
  function CleanupInOrder(st: Store): Store
  {
    RetireDevice(RetireShaders(RetireBuffers(RetireViews(st))))
  }

  /** The retire calls of cleanUp, one after the other, are RetireAll over
      CleanupSlots. */
  lemma CleanupInOrderRetiresAll(st: Store)
    ensures CleanupInOrder(st) == RetireAll(st, CleanupSlots())
  {
    var v, b, sh, d := MemberSlots(CleanupViews), MemberSlots(CleanupBuffers), MemberSlots(CleanupShaders), MemberSlots(CleanupDevice);
    MemberSlotsAppend(CleanupViews, CleanupBuffers);
    MemberSlotsAppend(CleanupViews + CleanupBuffers, CleanupShaders);
    MemberSlotsAppend(CleanupViews + CleanupBuffers + CleanupShaders, CleanupDevice);
    RetireAllAppend(st, v, b);
    RetireAllAppend(st, v + b, sh);
    RetireAllAppend(st, v + b + sh, d);
    RetireViewsAll(st);
    RetireBuffersAll(RetireViews(st));
    RetireShadersAll(RetireBuffers(RetireViews(st)));
    RetireDeviceAll(RetireShaders(RetireBuffers(RetireViews(st))));
  }

  lemma MemberSlotsAppend(a: seq<Field>, b: seq<Field>)
    ensures MemberSlots(a + b) == MemberSlots(a) + MemberSlots(b)
  {
  }

  /** Retiring a + b is retiring a, then b. */
  lemma {:induction false} RetireAllAppend(st: Store, a: seq<Slot>, b: seq<Slot>)
    ensures RetireAll(st, a + b) == RetireAll(RetireAll(st, a), b)
    decreases |a|
  {
    if |a| == 0 {
      assert a + b == b;
    } else {
      assert (a + b)[1..] == a[1..] + b;
      RetireAllAppend(Retired(st, a[0]), a[1..], b);
    }
  }

  /** cleanUp: afterwards every field is null, the temporaries are as they
      were, every handle a field held has been released exactly once (in
      teardown order), and nothing was released twice. */
  lemma CleanupEffect(st: Store)
    requires Valid(st)
    ensures var st' := RetireAll(st, CleanupSlots());
      && Valid(st')
      && (forall f: Field :: Held(st', Member(f)) == None)
      && (forall l: Local :: Held(st', Temp(l)) == Held(st, Temp(l)))
      && st'.released == st.released + HeldIn(st, CleanupSlots())
  {
    CleanupSlotsSpec();
    RetireAllFields(st, CleanupSlots());
  }

  /** Retiring a list that names every field once, and no local, leaves
      every field null and the locals as they were. */
  lemma RetireAllFields(st: Store, ss: seq<Slot>)
    requires Valid(st) && NoDuplicates(ss)
    requires (forall f: Field :: Member(f) in ss) && (forall s | s in ss :: s.Member?)
    ensures var st' := RetireAll(st, ss);
      && Valid(st')
      && (forall f: Field :: Held(st', Member(f)) == None)
      && (forall l: Local :: Held(st', Temp(l)) == Held(st, Temp(l)))
      && st'.released == st.released + HeldIn(st, ss)
  {
    RetireAllEffect(st, ss);
  }

  /** cleanUp on a renderer that never created anything releases nothing. */
  lemma CleanupOfInitial()
    ensures RetireAll(Initial(), CleanupSlots()) == Initial()
  {
    CleanupSlotsSpec();
    RetireAllOfNull(Initial(), CleanupSlots());
  }

  /** b comes after a, only the slots in `touched` may differ, a slot that
      changed holds a handle issued in between (or none), and every handle
      released in between was issued in between: nothing that existed at a
      was released. */
  ghost predicate Grows(a: Store, b: Store, touched: set<Slot>)
  {
    && a.next <= b.next
    && a.released <= b.released
    && (forall i | |a.released| <= i < |b.released| :: a.next <= b.released[i])
    && (forall s | s !in touched :: Held(b, s) == Held(a, s))
    && (forall s | Held(b, s).Some? && Held(b, s) != Held(a, s) :: a.next <= Held(b, s).value)
  }

  lemma GrowsRefl(a: Store, t: set<Slot>)
    ensures Grows(a, a, t)
  {
  }

  lemma GrowsTrans(a: Store, b: Store, c: Store, t: set<Slot>)
    requires Grows(a, b, t) && Grows(b, c, t)
    ensures Grows(a, c, t)
  {
  }

  lemma GrowsWiden(a: Store, b: Store, t: set<Slot>, u: set<Slot>)
    requires Grows(a, b, t) && t <= u
    ensures Grows(a, b, u)
  {
  }

  /** Issuing a handle into one of the touched slots keeps growth. */
  lemma AcquiredGrows(a: Store, st: Store, s: Slot, t: set<Slot>)
    requires Grows(a, st, t) && s in t
    ensures Grows(a, Acquired(st, s), t)
  {
  }

  /** Retiring a touched slot that was null at a keeps growth: whatever it
      holds now was issued since. */
  lemma RetiredGrows(a: Store, st: Store, s: Slot, t: set<Slot>)
    requires Grows(a, st, t) && s in t && Held(a, s) == None
    ensures Grows(a, Retired(st, s), t)
  {
  }
}
