/** The audio manager's volume side: the category table (a dense array indexed by category
    ordinal plus a name dictionary), the listener registry (a linked list of nodes with a stack
    of recycled nodes), dispatch of volume changes, and the per-emitter AudioCategorizer
    that listens to them. */
module Audio {
  import opened Volumes
  import VS = VolumeSetting
  import opened CategorySettings

  /** One invocation of the manager's static OnVolumeChanged event. */
  datatype CategoryChange = CategoryChange(category: Category, prev: real, next: real)

  /** How one dispatch treated one registered listener: notified, or notified with its
      exception caught and logged. */
  datatype Delivery = Delivered | Caught

  /** Everything of an AudioCategorizer but its registry node; `output` is its
      AudioSource's volume. */
  datatype ListenerView = ListenerView(
    category: Category,
    unscaledVolume: real,
    output: real,
    sourceCached: bool,
    destroyed: bool)

  /** The volume UpdateVolume gives an emitter: Global passes the unscaled volume through
      (the master sink already scales it), other categories scale by the category volume. */
  function ScaledVolume(category: Category, unscaledVolume: real, categoryVolume: real): (r: real)
    ensures category == Global ==> r == unscaledVolume
    ensures category != Global ==> InUnit(r)
    ensures category != Global && InUnit(unscaledVolume) && InUnit(categoryVolume) ==>
              r == unscaledVolume * categoryVolume
    ensures category != Global && categoryVolume == 0.0 ==> r == 0.0
  {
    if category == Global then unscaledVolume
    else
      UnitProduct(unscaledVolume, categoryVolume);
      Clamp01(unscaledVolume * categoryVolume)
  }

  lemma UnitProduct(a: real, b: real)
    ensures InUnit(a) && InUnit(b) ==> InUnit(a * b)
  {
    if InUnit(a) && InUnit(b) {
      assert 0.0 <= a * b;
      assert a * b <= a by {
        assert a * (1.0 - b) >= 0.0;
      }
    }
  }

  /** AudioCategorizer.OnVolumeChanged as the registry sees it: it raises when the category
      matches but the AudioSource reference is missing or destroyed. */
  predicate Raises(v: ListenerView, category: Category) {
    v.category == category && (!v.sourceCached || v.destroyed)
  }

  /** The dispatcher's treatment of one listener. Its null test compares the interface
      reference, so a destroyed component is still called. */
  function Deliver(v: ListenerView, category: Category): Delivery {
    if Raises(v, category) then Caught else Delivered
  }

  /** A listener after one dispatch: only a live listener of the dispatched category with a
      cached AudioSource takes the new volume, unscaled. */
  function Notify(v: ListenerView, category: Category, next: real): (r: ListenerView)
    ensures r.category == v.category && r.unscaledVolume == v.unscaledVolume
    ensures r.sourceCached == v.sourceCached && r.destroyed == v.destroyed
    ensures v.category != category ==> r == v
    ensures Deliver(v, category) != Delivered ==> r == v
    ensures v.category == category && Deliver(v, category) == Delivered ==> r == v.(output := next)
  {
    if !v.destroyed && v.category == category && v.sourceCached then v.(output := next) else v
  }

  function NotifyAll(vs: seq<ListenerView>, category: Category, next: real): (r: seq<ListenerView>)
    ensures |r| == |vs|
    ensures forall i :: 0 <= i < |vs| ==> r[i] == Notify(vs[i], category, next)
  {
    seq(|vs|, i requires 0 <= i < |vs| => Notify(vs[i], category, next))
  }

  function Deliveries(vs: seq<ListenerView>, category: Category): (r: seq<Delivery>)
    ensures |r| == |vs|
    ensures forall i :: 0 <= i < |vs| ==> r[i] == Deliver(vs[i], category)
  {
    seq(|vs|, i requires 0 <= i < |vs| => Deliver(vs[i], category))
  }

  /** The listeners after every dispatch recorded in a log of static events, oldest first. */
  function NotifyLog(vs: seq<ListenerView>, log: seq<CategoryChange>): (r: seq<ListenerView>)
    ensures |r| == |vs|
    decreases |log|
  {
    if log == [] then vs
    else
      var last := log[|log| - 1];
      NotifyAll(NotifyLog(vs, log[..|log| - 1]), last.category, last.next)
  }

  function Repeat(e: CategoryChange, k: nat): (r: seq<CategoryChange>)
    ensures |r| == k && forall i :: 0 <= i < k ==> r[i] == e
  {
    seq(k, _ => e)
  }

  /** Dispatching the same change twice is the same as once. */
  lemma NotifyAllIdempotent(vs: seq<ListenerView>, category: Category, next: real)
    ensures NotifyAll(NotifyAll(vs, category, next), category, next) == NotifyAll(vs, category, next)
  {
  }

  /** A change dispatched once per bound handler reaches the listeners as if dispatched once. */
  lemma {:induction false} RepeatedDispatchIsOnce(vs: seq<ListenerView>, e: CategoryChange, k: nat)
    requires k >= 1
    ensures NotifyLog(vs, Repeat(e, k)) == NotifyAll(vs, e.category, e.next)
    decreases k
  {
    assert Repeat(e, k)[..k - 1] == Repeat(e, k - 1);
    if k > 1 {
      RepeatedDispatchIsOnce(vs, e, k - 1);
      NotifyAllIdempotent(vs, e.category, e.next);
    }
  }

  /** Each listener's outcome of a dispatch depends on that listener alone: whatever the
      others do, including raising, a delivered listener of the category takes the new volume
      and a listener of another category keeps its output. That the dispatch loop carries on
      after a raise is the loop of UpdateVolumeListeners, whose contract is NotifyAll. */
  lemma DispatchIsolation(vs: seq<ListenerView>, category: Category, next: real, j: nat)
    requires j < |vs|
    ensures Deliveries(vs, category)[j] == Delivered && vs[j].category == category ==>
              NotifyAll(vs, category, next)[j].output == next
    ensures vs[j].category != category ==> NotifyAll(vs, category, next)[j] == vs[j]
  {
  }

  /** Growth rule of the category table: max(index + 1, 2 * length). */
  function GrownLength(index: nat, length: nat): (r: nat)
    ensures r > index && r >= 2 * length
    ensures r == index + 1 || r == 2 * length
  {
    if index + 1 < 2 * length then 2 * length else index + 1
  }

  /** Outcome of GetCategorySettings(int) as written: a slot, or the out-of-range fault. */
  datatype Lookup = Found(settings: AudioCategorySettings?) | IndexOutOfRange

  /** One table slot as SaveCategories sees it. */
  datatype SaveEntry = SaveEntry(key: string, state: VS.State)

  /** The store after saving the given slots in order; empty slots are skipped. */
  function SaveAll(store: map<string, real>, entries: seq<Option<SaveEntry>>): map<string, real>
    decreases |entries|
  {
    if entries == [] then store
    else
      var before := SaveAll(store, entries[..|entries| - 1]);
      match entries[|entries| - 1]
      case None => before
      case Some(e) => VS.Save(e.state, e.key, before)
  }

  predicate DistinctKeys(entries: seq<Option<SaveEntry>>) {
    forall i, j :: 0 <= i < j < |entries| && entries[i].Some? && entries[j].Some? ==>
      entries[i].value.key != entries[j].value.key
  }

  predicate WritesKey(entries: seq<Option<SaveEntry>>, key: string) {
    exists i :: 0 <= i < |entries| && entries[i].Some? && entries[i].value.key == key && entries[i].value.state.dirty
  }

  /** With distinct keys, saving all slots writes each dirty slot's volume under its key and
      leaves every other key as it was. */
  lemma {:induction false} SaveAllEffect(store: map<string, real>, entries: seq<Option<SaveEntry>>)
    requires DistinctKeys(entries)
    ensures forall i :: 0 <= i < |entries| && entries[i].Some? && entries[i].value.state.dirty ==>
              var e := entries[i].value;
              e.key in SaveAll(store, entries) && SaveAll(store, entries)[e.key] == e.state.volume
    ensures forall k :: !WritesKey(entries, k) ==>
              (k in SaveAll(store, entries) <==> k in store) &&
              (k in store ==> SaveAll(store, entries)[k] == store[k])
    decreases |entries|
  {
    if entries != [] {
      var n := |entries| - 1;
      var prefix := entries[..n];
      assert DistinctKeys(prefix);
      SaveAllEffect(store, prefix);
      forall k | !WritesKey(entries, k)
        ensures !WritesKey(prefix, k)
      {
      }
      forall i | 0 <= i < n && entries[i].Some? && entries[i].value.state.dirty
        ensures prefix[i] == entries[i]
      {
      }
    }
  }

  /** The static events one setting event produces: one per bound handler. */
  function Raised(category: Category, event: Option<VS.Change>, handlers: nat): seq<CategoryChange> {
    if event.None? then [] else Repeat(CategoryChange(category, event.value.prev, event.value.next), handlers)
  }

  /** The static events LoadCategories raises for categories 0 .. count - 1: a fresh setting
      announces its loaded volume once, through its single bound handler. */
  function LoadLog(count: nat, store: map<string, real>): (log: seq<CategoryChange>)
    ensures forall i :: 0 <= i < |log| ==>
              log[i].category < count && log[i].prev == 1.0 && InUnit(log[i].next)
  {
    if count == 0 then []
    else
      var c := count - 1;
      LoadLog(c, store) + Raised(c, VS.Load(VS.Initial(1.0), PrefsKey(c), store).event, 1)
  }

  /** With nothing saved, loading announces nothing. */
  lemma {:induction false} LoadNothingSavedIsSilent(count: nat)
    ensures LoadLog(count, map[]) == []
  {
    if count > 0 {
      LoadNothingSavedIsSilent(count - 1);
      ApproxReflexive(1.0);
    }
  }

  /** Loading announces at most one change per category. */
  lemma {:induction false} LoadLogBound(count: nat, store: map<string, real>)
    ensures |LoadLog(count, store)| <= count
  {
    if count > 0 {
      LoadLogBound(count - 1, store);
    }
  }

  /** Position of the first occurrence of x in s. */
  function IndexOf<T(==)>(s: seq<T>, x: T): (i: nat)
    requires x in s
    ensures i < |s| && s[i] == x && x !in s[..i]
  {
    if s[0] == x then 0 else 1 + IndexOf(s[1..], x)
  }

  /** Array.Copy(source, 0, destination, 0, length): the first length elements of source
      land in destination, which keeps the rest; source and destination may be one array. */
  method ArrayCopy<T>(source: array<T>, destination: array<T>, length: nat)
    requires length <= source.Length && length <= destination.Length
    modifies destination
    ensures forall j :: 0 <= j < length ==> destination[j] == old(source[j])
    ensures forall j :: length <= j < destination.Length ==> destination[j] == old(destination[j])
  {
    var i := 0;
    while i < length
      invariant 0 <= i <= length
      invariant forall j :: 0 <= j < i ==> destination[j] == old(source[j])
      invariant forall j :: i <= j < source.Length ==> source[j] == old(source[j])
      invariant forall j :: i <= j < destination.Length ==> destination[j] == old(destination[j])
    {
      destination[i] := source[i];
      i := i + 1;
    }
  }

  /** A new table of newSize empty slots into which the source table is copied. */
  method Resized(source: array<AudioCategorySettings?>, newSize: nat) returns (a: array<AudioCategorySettings?>)
    requires source.Length <= newSize
    ensures fresh(a) && a.Length == newSize
    ensures forall j :: 0 <= j < source.Length ==> a[j] == source[j]
    ensures forall j :: source.Length <= j < newSize ==> a[j] == null
  {
    a := new AudioCategorySettings?[newSize](_ => null);
    ArrayCopy(source, a, source.Length);
  }

  /** A LinkedListNode<IVolumeListener>: the registry's handle for one listener. */
  class ListenerNode {
    var value: AudioCategorizer?

    constructor (value: AudioCategorizer?)
      ensures this.value == value
    {
      this.value := value;
    }
  }

  /** A node that may be missing, as a set for frames. */
  function Maybe(n: ListenerNode?): (ns: set<ListenerNode>)
    ensures n != null <==> n in ns
  {
    if n == null then {} else {n}
  }

  /** The AudioSource component an emitter plays through. */
  class AudioSource {
    var volume: real
    /** Destroyed by the engine: writing its volume then raises. */
    var destroyed: bool

    constructor (volume: real)
      ensures this.volume == volume && !destroyed
    {
      this.volume := volume;
      destroyed := false;
    }

    /** The engine destroying the component. */
    method Destroy()
      modifies this
      ensures destroyed && volume == old(volume)
    {
      destroyed := true;
    }
  }

  /** AudioCategorizer: scales its AudioSource's volume by its category's volume. */
  class AudioCategorizer {
    /** The sibling AudioSource that RequireComponent guarantees. */
    const component: AudioSource
    /** Whether Awake has cached the reference to it; until then the cached field is null. */
    var sourceCached: bool
    /** IVolumeListener.RegistryNode: the node holding this listener while registered. */
    var registryNode: ListenerNode?
    var unscaledVolume: real
    var category: Category

    function View(): ListenerView
      reads `category, `unscaledVolume, `sourceCached, component`volume, component`destroyed
    {
      ListenerView(category, unscaledVolume, component.volume, sourceCached, component.destroyed)
    }

    /** A new component with its serialized category, next to the given AudioSource. */
    constructor (category: Category, component: AudioSource)
      ensures this.component == component && !sourceCached && registryNode == null
      ensures unscaledVolume == 0.0 && this.category == category
    {
      this.component := component;
      sourceCached := false;
      registryNode := null;
      unscaledVolume := 0.0;
      this.category := category;
    }

    /** Awake(): caches the AudioSource and takes its current volume as the unscaled volume. */
    method Awake()
      modifies `sourceCached, `unscaledVolume
      ensures View() == old(View()).(unscaledVolume := component.volume, sourceCached := true)
      ensures registryNode == old(registryNode)
    {
      sourceCached := true;
      unscaledVolume := component.volume;
    }

    /** UpdateVolume(): Global plays at the unscaled volume, any other category at the unscaled
        volume scaled by the manager's category volume and clamped; writing through a missing
        or destroyed AudioSource raises. */
    method UpdateVolume(m: AudioManager) returns (raised: bool)
      requires m.Valid()
      modifies component`volume
      ensures m.Valid()
      ensures raised == (!sourceCached || component.destroyed)
      ensures View() == old(View()).(output :=
        if raised then old(component.volume) else ScaledVolume(category, unscaledVolume, m.GetVolume(category)))
    {
      if !sourceCached || component.destroyed {
        return true;
      }
      if category == Global {
        component.volume := unscaledVolume;
        return false;
      }
      component.volume := Clamp01(unscaledVolume * m.GetVolume(category));
      return false;
    }

    /** Category setter: stores the category, then recomputes the output. */
    method SetCategory(m: AudioManager, newCategory: Category) returns (raised: bool)
      requires m.Valid()
      modifies `category, component`volume
      ensures raised == (!sourceCached || component.destroyed)
      ensures View() == old(View()).(category := newCategory, output :=
        if raised then old(component.volume) else ScaledVolume(newCategory, unscaledVolume, m.GetVolume(newCategory)))
      ensures registryNode == old(registryNode)
    {
      category := newCategory;
      raised := UpdateVolume(m);
    }

    /** UnscaledVolume setter: stores the volume, then recomputes the output. */
    method SetUnscaledVolume(m: AudioManager, newUnscaledVolume: real) returns (raised: bool)
      requires m.Valid()
      modifies `unscaledVolume, component`volume
      ensures raised == (!sourceCached || component.destroyed)
      ensures View() == old(View()).(unscaledVolume := newUnscaledVolume, output :=
        if raised then old(component.volume) else ScaledVolume(category, newUnscaledVolume, m.GetVolume(category)))
      ensures registryNode == old(registryNode)
    {
      unscaledVolume := newUnscaledVolume;
      raised := UpdateVolume(m);
    }

    /** OnVolumeChanged(audioCategory, oldVolume, newVolume): ignores other categories and
        otherwise sets the output to the new category volume, not scaled. */
    method OnVolumeChanged(audioCategory: Category, oldVolume: real, newVolume: real) returns (raised: bool)
      modifies component`volume
      ensures raised == Raises(old(View()), audioCategory)
      ensures View() == Notify(old(View()), audioCategory, newVolume)
    {
      if audioCategory != category {
        return false;
      }
      if !sourceCached || component.destroyed {
        return true;
      }
      component.volume := newVolume;
      return false;
    }

    /** OnEnable(): registers with the manager, then computes the initial output. */
    method OnEnable(m: AudioManager) returns (raised: bool)
      requires m.Valid() && (registryNode == null || this in m.Listeners())
      requires component in m.Sources() ==> this in m.Listeners()
      modifies `registryNode, Maybe(m.PoolTop())`value, component`volume
      modifies m`volumeListeners, m`volumeListenerNodePool, m`registry
      ensures m.Valid() && this in m.Listeners() && registryNode != null
      ensures old(registryNode) != null ==>
                registryNode == old(registryNode) &&
                m.volumeListeners == old(m.volumeListeners) && m.Listeners() == old(m.Listeners())
      ensures old(registryNode) == null ==>
                m.volumeListeners == old(m.volumeListeners) + [registryNode] &&
                m.Listeners() == old(m.Listeners()) + {this}
      ensures raised == (!sourceCached || component.destroyed)
      ensures View() == old(View()).(output :=
        if raised then old(component.volume) else ScaledVolume(category, unscaledVolume, m.GetVolume(category)))
    {
      m.AddVolumeListener(this);
      raised := UpdateVolume(m);
    }

    /** OnDisable(): unregisters from the manager unless the core is shutting down. */
    method OnDisable(m: AudioManager, shuttingDown: bool)
      requires m.Valid() && (registryNode == null || this in m.Listeners())
      modifies `registryNode, Maybe(registryNode)`value
      modifies m`volumeListeners, m`volumeListenerNodePool, m`registry
      ensures m.Valid() && View() == old(View())
      ensures shuttingDown || old(registryNode) == null ==>
                && registryNode == old(registryNode)
                && unchanged(m`volumeListeners, m`volumeListenerNodePool, m`registry)
                && m.Views() == old(m.Views())
      ensures !shuttingDown ==> registryNode == null && this !in m.Listeners()
      ensures !shuttingDown && old(registryNode) != null ==>
                && m.registry == Removed(old(m.registry), this)
                && m.volumeListeners == old(m.volumeListeners[..RemovedAt(m.registry, this)] +
                                            m.volumeListeners[RemovedAt(m.registry, this) + 1..])
                && m.volumeListenerNodePool == old(m.volumeListenerNodePool) + [old(registryNode)]
                && old(registryNode).value == null
                && m.Listeners() == old(m.Listeners()) - {this}
                && m.Views() == old(m.Views()[..RemovedAt(m.registry, this)] +
                                    m.Views()[RemovedAt(m.registry, this) + 1..])
    {
      if shuttingDown {
        return;
      }
      m.RemoveVolumeListener(this);
    }
  }

  /** The manager's static OnVolumeChanged event, as the record of its invocations. */
  class VolumeChangedEvent {
    /** Every invocation, oldest first. */
    var invocations: seq<CategoryChange>

    constructor ()
      ensures invocations == []
    {
      invocations := [];
    }
  }

  /** The registry as values: the LinkedList's nodes first to last, the pool Stack's nodes
      bottom to top, what every node ever made holds, every registered listener's
      RegistryNode, and the bookkeeping that ties them together. */
  datatype Registry = Registry(
    live: seq<ListenerNode>,
    pool: seq<ListenerNode>,
    held: map<ListenerNode, AudioCategorizer?>,
    nodeOf: map<AudioCategorizer, ListenerNode?>,
    position: map<AudioCategorizer, int>,
    owner: map<AudioSource, AudioCategorizer>,
    peak: int)

  /** The i-th live node holds a registered listener whose RegistryNode it is. */
  ghost predicate LiveAt(r: Registry, i: int)
    requires 0 <= i < |r.live|
  {
    var n := r.live[i];
    && n in r.held && r.held[n] != null
    && r.held[n] in r.nodeOf && r.nodeOf[r.held[n]] == n
    && r.held[n] in r.position && r.position[r.held[n]] == i
  }

  /** A registered listener sits where its position says and owns its AudioSource. */
  ghost predicate Placed(r: Registry, l: AudioCategorizer)
    requires l in r.nodeOf
  {
    && l in r.position && 0 <= r.position[l] < |r.live|
    && r.live[r.position[l]] in r.held && r.held[r.live[r.position[l]]] == l
    && l.component in r.owner && r.owner[l.component] == l
  }

  ghost predicate RegistryOk(r: Registry) {
    && (forall i :: 0 <= i < |r.live| ==> LiveAt(r, i))
    && (forall i, j :: 0 <= i < j < |r.pool| ==> r.pool[i] != r.pool[j])
    && (forall i :: 0 <= i < |r.pool| ==> r.pool[i] in r.held && r.held[r.pool[i]] == null)
    && (forall l :: l in r.nodeOf ==> Placed(r, l))
    && (forall a :: a in r.owner ==> r.owner[a] in r.nodeOf && r.owner[a].component == a)
    && |r.live| + |r.pool| == r.peak
  }

  /** The listeners the live nodes hold, first to last. */
  ghost function ListedOf(r: Registry): (ls: seq<AudioCategorizer>)
    requires RegistryOk(r)
    ensures |ls| == |r.live|
    ensures forall i :: 0 <= i < |ls| ==> r.live[i] in r.held && ls[i] == r.held[r.live[i]]
  {
    var live, held := r.live, r.held;
    forall i | 0 <= i < |live| ensures live[i] in held && held[live[i]] != null {
      assert LiveAt(r, i);
    }
    seq(|live|, i requires 0 <= i < |live| && live[i] in held && held[live[i]] != null =>
      held[live[i]])
  }

  /** AddVolumeListener on values: node n, the popped top of the pool or a new node, is
      given listener v and appended to the list. */
  ghost function Appended(r: Registry, v: AudioCategorizer, n: ListenerNode): Registry {
    var popped := r.pool != [];
    Registry(r.live + [n],
             if popped then r.pool[..|r.pool| - 1] else r.pool,
             r.held[n := v], r.nodeOf[v := n], r.position[v := |r.live|],
             r.owner[v.component := v],
             if popped then r.peak else r.peak + 1)
  }

  lemma AppendedOk(r: Registry, v: AudioCategorizer, n: ListenerNode)
    requires RegistryOk(r)
    requires v !in r.nodeOf && v.component !in r.owner
    requires r.pool != [] ==> n == r.pool[|r.pool| - 1]
    requires r.pool == [] ==> n !in r.held
    ensures RegistryOk(Appended(r, v, n))
  {
    var r' := Appended(r, v, n);
    forall i | 0 <= i < |r'.live| ensures LiveAt(r', i) {
      if i < |r.live| {
        assert LiveAt(r, i);
        assert r.live[i] != n;
        assert r.held[r.live[i]] != v;
      }
    }
    forall l | l in r'.nodeOf ensures Placed(r', l) {
      if l != v {
        assert Placed(r, l);
        assert l.component != v.component;
      }
    }
  }

  /** The nodes ever made are a high-water mark of the registered listeners: appending makes
      a node only when every node is in the list, so the count grows to the new list length
      and no further. */
  lemma AppendedPeak(r: Registry, v: AudioCategorizer, n: ListenerNode)
    requires RegistryOk(r)
    ensures |r.live| <= r.peak
    ensures Appended(r, v, n).peak == if |r.live| + 1 > r.peak then |r.live| + 1 else r.peak
  {
  }

  /** Appending puts v last in the listing and moves no one else. */
  lemma ListedAppended(r: Registry, v: AudioCategorizer, n: ListenerNode)
    requires RegistryOk(r) && RegistryOk(Appended(r, v, n))
    requires r.pool != [] ==> n == r.pool[|r.pool| - 1]
    requires r.pool == [] ==> n !in r.held
    ensures ListedOf(Appended(r, v, n)) == ListedOf(r) + [v]
  {
    var ls, ls' := ListedOf(r), ListedOf(Appended(r, v, n));
    forall i | 0 <= i < |ls| ensures ls'[i] == ls[i] {
      assert LiveAt(r, i);
    }
  }

  /** RemoveVolumeListener on values: registered listener v's node leaves the list, is
      emptied and pushed on the pool; later listeners move one place forward. */
  ghost function Removed(r: Registry, v: AudioCategorizer): Registry
    requires RegistryOk(r) && v in r.nodeOf
  {
    var k := RemovedAt(r, v);
    var n := r.live[k];
    Registry(r.live[..k] + r.live[k + 1..], r.pool + [n], r.held[n := null], r.nodeOf - {v},
             map l | l in r.nodeOf && l != v :: Shifted(r, l, k),
             r.owner - {v.component}, r.peak)
  }

  /** Where registered listener v's node sits in the list. */
  ghost function RemovedAt(r: Registry, v: AudioCategorizer): (k: nat)
    requires RegistryOk(r) && v in r.nodeOf
    ensures k < |r.live| && r.live[k] in r.held && r.held[r.live[k]] == v
  {
    assert Placed(r, v);
    r.position[v]
  }

  ghost function Shifted(r: Registry, l: AudioCategorizer, k: nat): int
    requires RegistryOk(r) && l in r.nodeOf
  {
    assert Placed(r, l);
    if r.position[l] > k then r.position[l] - 1 else r.position[l]
  }

  lemma RemovedOk(r: Registry, v: AudioCategorizer)
    requires RegistryOk(r) && v in r.nodeOf
    ensures RegistryOk(Removed(r, v))
  {
    var r' := Removed(r, v);
    assert Placed(r, v);
    var k := r.position[v];
    var n := r.live[k];
    assert LiveAt(r, k);
    forall i | 0 <= i < |r'.live| ensures LiveAt(r', i) {
      var j := if i < k then i else i + 1;
      assert r'.live[i] == r.live[j];
      assert LiveAt(r, j);
      assert r.live[j] != n;
    }
    forall i | 0 <= i < |r'.pool| - 1 ensures r'.pool[i] != n {
      assert r.held[r.pool[i]] == null;
    }
    forall l | l in r'.nodeOf ensures Placed(r', l) {
      assert Placed(r, l);
      assert r.position[l] != k;
      var j := r.position[l];
      var i := if j < k then j else j - 1;
      assert r'.live[i] == r.live[j];
      assert r.live[j] != n;
    }
  }

  /** Removing v drops it from the listing and moves the later listeners one place
      forward. */
  lemma ListedRemoved(r: Registry, v: AudioCategorizer)
    requires RegistryOk(r) && v in r.nodeOf && RegistryOk(Removed(r, v))
    ensures var k := RemovedAt(r, v);
            ListedOf(Removed(r, v)) == ListedOf(r)[..k] + ListedOf(r)[k + 1..]
  {
    var k := RemovedAt(r, v);
    var ls, ls' := ListedOf(r), ListedOf(Removed(r, v));
    assert LiveAt(r, k);
    forall i | 0 <= i < |ls'| ensures ls'[i] == ls[if i < k then i else i + 1] {
      var j := if i < k then i else i + 1;
      assert LiveAt(r, j);
    }
  }

  class AudioManager {
    var categorySettings: array<AudioCategorySettings?>
    var categorySettingsByName: map<string, AudioCategorySettings>
    /** The LinkedList of registered listeners' nodes, first to last. */
    var volumeListeners: seq<ListenerNode>
    /** The Stack of recycled nodes; its top is the last element. */
    var volumeListenerNodePool: seq<ListenerNode>
    /** The static OnVolumeChanged event. */
    const onVolumeChanged: VolumeChangedEvent

    ghost var Settings: set<AudioCategorySettings>
    /** The registry's bookkeeping as one value: the list and the pool as the real fields hold
        them, what every node ever made holds, each registered listener's RegistryNode and
        position, the listener driving each AudioSource, and the peak. */
    ghost var registry: Registry

    /** Every slot holds the setting of its own category; names map to settings of that name;
        every setting known to the table is valid and has the manager bound to its event. */
    ghost predicate TableValid()
      reads `categorySettings, `categorySettingsByName, `Settings, categorySettings, Settings
    {
      && (forall i :: 0 <= i < categorySettings.Length && categorySettings[i] != null ==>
            categorySettings[i] in Settings && categorySettings[i].category == i)
      && (forall name :: name in categorySettingsByName ==>
            categorySettingsByName[name] in Settings && categorySettingsByName[name].name == name)
      && (forall s :: s in Settings ==> s.Valid() && s.boundHandlers >= 1)
    }

    /** The registered listeners. */
    ghost function Listeners(): set<AudioCategorizer>
      reads `registry
    {
      registry.nodeOf.Keys
    }

    /** Every node the registry ever made. */
    ghost function Nodes(): set<ListenerNode>
      reads `registry
    {
      registry.held.Keys
    }

    /** The bookkeeping agrees with the heap: every node's Value and every registered
        listener's RegistryNode are what the registry records. */
    ghost predicate Coupled()
      reads `registry, registry.held.Keys`value, registry.nodeOf.Keys`registryNode
    {
      && (forall n :: n in registry.held ==> n.value == registry.held[n])
      && (forall l :: l in registry.nodeOf ==> l.registryNode == registry.nodeOf[l])
    }

    /** A node is either live (in the list, holding a listener whose RegistryNode it is) or
        free (on the pool stack, holding nothing), never both; registered listeners drive
        distinct AudioSources; list and pool together hold exactly as many nodes as the most
        listeners ever registered at once. */
    ghost predicate RegistryValid()
      reads `volumeListeners, `volumeListenerNodePool, `registry
      reads registry.held.Keys`value, registry.nodeOf.Keys`registryNode
    {
      && registry.live == volumeListeners && registry.pool == volumeListenerNodePool
      && RegistryOk(registry) && Coupled()
    }

    ghost predicate Valid()
      reads `categorySettings, `categorySettingsByName, `Settings, categorySettings, Settings
      reads `volumeListeners, `volumeListenerNodePool, `registry
      reads registry.held.Keys`value, registry.nodeOf.Keys`registryNode
    {
      TableValid() && RegistryValid()
    }

    /** The registry invariant depends only on the registry's fields, nodes and listeners. */
    twostate lemma RegistryFramed()
      requires old(RegistryValid())
      requires unchanged(`volumeListeners, `volumeListenerNodePool, `registry)
      requires unchanged(old(Nodes())) && unchanged(old(Listeners()))
      ensures RegistryValid()
    {
    }

    /** The table invariant depends only on the table's fields, array and settings. */
    twostate lemma TableFramed()
      requires old(TableValid())
      requires unchanged(`categorySettings, `categorySettingsByName, `Settings)
      requires unchanged(old(categorySettings)) && unchanged(old(Settings))
      ensures TableValid()
    {
    }

    /** Linking listener v to node n keeps the bookkeeping coupled to the heap. */
    twostate lemma LinkedCoupled(v: AudioCategorizer, new n: ListenerNode)
      requires old(Coupled())
      requires registry.held == old(registry.held)[n := v] && n.value == v
      requires registry.nodeOf == old(registry.nodeOf)[v := n] && v.registryNode == n
      requires forall x :: x in old(registry.held) && x != n ==> unchanged(x`value)
      requires forall x :: x in old(registry.nodeOf) && x != v ==> unchanged(x`registryNode)
      ensures Coupled()
    {
    }

    /** Linking unregistered listener v to a free node and appending the node keeps the
        manager valid. */
    twostate lemma Linked(v: AudioCategorizer, new node: ListenerNode)
      requires old(Valid())
      requires v !in old(Listeners()) && v.component !in old(Sources())
      requires old(volumeListenerNodePool) != [] ==>
                 node == old(PoolTop()) && volumeListenerNodePool == old(volumeListenerNodePool[..|volumeListenerNodePool| - 1])
      requires old(volumeListenerNodePool) == [] ==> fresh(node) && volumeListenerNodePool == []
      requires node.value == v && v.registryNode == node
      requires volumeListeners == old(volumeListeners) + [node]
      requires registry == Appended(old(registry), v, node)
      requires forall x :: x in old(registry.held) && x != node ==> unchanged(x`value)
      requires forall x :: x in old(registry.nodeOf) && x != v ==> unchanged(x`registryNode)
      requires unchanged(`categorySettings, `categorySettingsByName, `Settings)
      requires unchanged(old(categorySettings)) && unchanged(old(Settings))
      requires forall l :: l in old(Listeners()) ==> l.View() == old(l.View())
      ensures Valid()
      ensures Views() == old(Views()) + [v.View()]
    {
      LinkedCoupled(v, node);
      AppendedOk(old(registry), v, node);
      TableFramed();
      ListedAppended(old(registry), v, node);
      ViewsAppended(v);
    }

    /** Unlinking registered listener v from its node, emptying the node and pushing it on
        the pool keeps the manager valid. */
    twostate lemma Unlinked(v: AudioCategorizer, new node: ListenerNode)
      requires old(Valid()) && v in old(Listeners()) && old(v.registryNode) == node
      requires node.value == null && v.registryNode == null
      requires volumeListeners == old(volumeListeners[..RemovedAt(registry, v)] + volumeListeners[RemovedAt(registry, v) + 1..])
      requires volumeListenerNodePool == old(volumeListenerNodePool) + [node]
      requires registry == Removed(old(registry), v)
      requires forall x :: x in old(registry.held) && x != node ==> unchanged(x`value)
      requires forall x :: x in old(registry.nodeOf) && x != v ==> unchanged(x`registryNode)
      requires unchanged(`categorySettings, `categorySettingsByName, `Settings)
      requires unchanged(old(categorySettings)) && unchanged(old(Settings))
      requires forall l :: l in old(Listeners()) ==> l.View() == old(l.View())
      ensures Valid()
      ensures Views() == old(Views()[..RemovedAt(registry, v)] + Views()[RemovedAt(registry, v) + 1..])
    {
      var k := RemovedAt(old(registry), v);
      assert LiveAt(old(registry), k);
      RemovedOk(old(registry), v);
      TableFramed();
      ListedRemoved(old(registry), v);
      ViewsRemoved(k);
    }

    /** When the listing gains v at its end and no earlier listener's view changed, the
        views gain v's view. */
    twostate lemma ViewsAppended(v: AudioCategorizer)
      requires old(RegistryValid()) && RegistryValid()
      requires Listed() == old(Listed()) + [v]
      requires forall l :: l in old(Listeners()) ==> l.View() == old(l.View())
      ensures Views() == old(Views()) + [v.View()]
    {
      ViewsOf(old(Views()) + [v.View()]);
    }

    /** When the listing loses its k-th listener and no other listener's view changed,
        the views lose their k-th. */
    twostate lemma ViewsRemoved(k: int)
      requires old(RegistryValid()) && RegistryValid()
      requires 0 <= k < old(|Listed()|)
      requires Listed() == old(Listed()[..k] + Listed()[k + 1..])
      requires forall l :: l in old(Listeners()) ==> l.View() == old(l.View())
      ensures Views() == old(Views()[..k] + Views()[k + 1..])
    {
      var before, after, views := old(Listed()), Listed(), old(Views());
      var vs := views[..k] + views[k + 1..];
      forall j | 0 <= j < |vs| ensures after[j].View() == vs[j] {
        var i := if j < k then j else j + 1;
        assert after[j] == before[i] && vs[j] == views[i];
        assert views[i] == old(before[i].View()) && before[i] in old(Listeners());
      }
      ViewsOf(vs);
    }

    /** The AudioSources of the registered listeners: what a dispatch may write. */
    ghost function Sources(): set<AudioSource>
      reads `registry
    {
      registry.owner.Keys
    }

    /** A listener without a RegistryNode is not registered. */
    lemma Unregistered(l: AudioCategorizer)
      requires RegistryValid()
      ensures l in Listeners() ==> l.registryNode != null
    {
      if l in Listeners() {
        Registered(l);
      }
    }

    /** Every live node holds a registered listener whose RegistryNode it is. */
    lemma LiveNodes()
      requires RegistryValid()
      ensures forall i :: 0 <= i < |volumeListeners| ==>
                && volumeListeners[i] in registry.held
                && volumeListeners[i].value != null
                && volumeListeners[i].value in registry.nodeOf
                && volumeListeners[i].value.registryNode == volumeListeners[i]
                && volumeListeners[i].value in registry.position
                && registry.position[volumeListeners[i].value] == i
                && volumeListeners[i].value.component in registry.owner
    {
      var r := registry;
      forall i | 0 <= i < |volumeListeners|
        ensures && volumeListeners[i] in registry.held
                && volumeListeners[i].value != null
                && volumeListeners[i].value in registry.nodeOf
                && volumeListeners[i].value.registryNode == volumeListeners[i]
                && volumeListeners[i].value in registry.position
                && registry.position[volumeListeners[i].value] == i
                && volumeListeners[i].value.component in registry.owner
      {
        assert LiveAt(r, i);
        assert Placed(r, r.held[volumeListeners[i]]);
      }
    }

    /** A registered listener's RegistryNode is the live node at its position. */
    lemma Registered(l: AudioCategorizer)
      requires RegistryValid() && l in Listeners()
      ensures l in registry.position && 0 <= registry.position[l] < |volumeListeners|
      ensures l.registryNode == volumeListeners[registry.position[l]] && volumeListeners[registry.position[l]].value == l
      ensures l.component in Sources()
    {
      var r := registry;
      assert Placed(r, l);
      assert LiveAt(r, r.position[l]);
    }

    /** The registered listeners, in list order. */
    ghost function Listed(): (ls: seq<AudioCategorizer>)
      requires RegistryValid()
      reads `volumeListeners, `volumeListenerNodePool, `registry
      reads registry.held.Keys`value, registry.nodeOf.Keys`registryNode
      ensures |ls| == |volumeListeners|
      ensures forall i :: 0 <= i < |ls| ==>
                ls[i] == volumeListeners[i].value && ls[i] in Listeners() && ls[i].component in Sources()
    {
      LiveNodes();
      ListedOf(registry)
    }

    /** The registered listeners' observable state, in list order. */
    ghost function Views(): (vs: seq<ListenerView>)
      requires RegistryValid()
      reads `volumeListeners, `volumeListenerNodePool, `registry
      reads registry.held.Keys`value, registry.nodeOf.Keys, Sources()
      ensures |vs| == |volumeListeners|
      ensures forall i :: 0 <= i < |vs| ==> vs[i] == Listed()[i].View()
    {
      var ls, listeners, sources := Listed(), Listeners(), Sources();
      seq(|ls|, i requires 0 <= i < |ls| && ls[i] in listeners && ls[i].component in sources
                  reads listeners, sources =>
        ls[i].View())
    }

    /** Views() is the sequence of the listed listeners' views. */
    lemma ViewsOf(vs: seq<ListenerView>)
      requires RegistryValid()
      requires |vs| == |Listed()| && forall j :: 0 <= j < |vs| ==> Listed()[j].View() == vs[j]
      ensures Views() == vs
    {
    }

    /** A listener is registered at most once, and no two registered listeners share an
        AudioSource. */
    lemma ListedDistinct()
      requires RegistryValid()
      ensures forall i, j :: 0 <= i < j < |Listed()| ==> Listed()[i].component != Listed()[j].component
    {
      LiveNodes();
      forall i, j | 0 <= i < j < |Listed()|
        ensures Listed()[i].component != Listed()[j].component
      {
        var r := registry;
        assert Placed(r, Listed()[i]) && Placed(r, Listed()[j]);
      }
    }

    function PoolTop(): (n: ListenerNode?)
      reads `volumeListenerNodePool
    {
      if volumeListenerNodePool == [] then null else volumeListenerNodePool[|volumeListenerNodePool| - 1]
    }

    /** The manager after its field initialisers. The source leaves the category table and
        the name dictionary unset (null) until LoadCategories creates them; the model starts
        from an empty table and an empty dictionary instead. */
    constructor (onVolumeChanged: VolumeChangedEvent)
      ensures Valid() && fresh(categorySettings) && this.onVolumeChanged == onVolumeChanged
      ensures categorySettings.Length == 0 && categorySettingsByName == map[]
      ensures volumeListeners == [] && volumeListenerNodePool == []
      ensures Settings == {} && registry == Registry([], [], map[], map[], map[], map[], 0)
    {
      categorySettings := new AudioCategorySettings?[0];
      categorySettingsByName := map[];
      volumeListeners := [];
      volumeListenerNodePool := [];
      this.onVolumeChanged := onVolumeChanged;
      Settings := {};
      registry := Registry([], [], map[], map[], map[], map[], 0);
    }

    /** GetCategorySettings(int) as written: the guard lets index == Length through to an
        array access that raises IndexOutOfRangeException. */
    function GetCategorySettingsAsWritten(index: int): (r: Lookup)
      reads `categorySettings, categorySettings
      ensures index < 0 || index > categorySettings.Length ==> r == Found(null)
      ensures index == categorySettings.Length ==> r == IndexOutOfRange
      ensures 0 <= index < categorySettings.Length ==> r == Found(categorySettings[index])
    {
      if index < 0 || index > categorySettings.Length then Found(null)
      else if index == categorySettings.Length then IndexOutOfRange
      else Found(categorySettings[index])
    }

    /** GetCategorySettings(int) with the guard the lookup needs: every index outside the
        table is "not found". */
    function GetCategorySettingsAt(index: int): (r: AudioCategorySettings?)
      reads `categorySettings, categorySettings
      ensures r != null <==> 0 <= index < categorySettings.Length && categorySettings[index] != null
      ensures r != null ==> r == categorySettings[index]
    {
      if index < 0 || index >= categorySettings.Length then null else categorySettings[index]
    }

    /** The as-written lookup faults exactly at index == Length and agrees with the corrected
        one everywhere else. */
    lemma AsWrittenFaultsOnlyAtLength(index: int)
      ensures GetCategorySettingsAsWritten(index) == IndexOutOfRange <==> index == categorySettings.Length
      ensures index != categorySettings.Length ==>
                GetCategorySettingsAsWritten(index) == Found(GetCategorySettingsAt(index))
    {
    }

    /** GetCategorySettings(AudioCategory). */
    function GetCategorySettings(category: Category): (r: AudioCategorySettings?)
      requires TableValid()
      reads `categorySettings, `categorySettingsByName, `Settings, categorySettings, Settings
      ensures r == GetCategorySettingsAt(category)
      ensures r != null ==> r in Settings && r.category == category && r.Valid()
    {
      GetCategorySettingsAt(category)
    }

    /** GetCategorySettings(string): the dictionary lookup, null when the name is unknown. */
    function GetCategorySettingsByName(categoryName: string): (r: AudioCategorySettings?)
      requires TableValid()
      reads `categorySettings, `categorySettingsByName, `Settings, categorySettings, Settings
      ensures r != null <==> categoryName in categorySettingsByName
      ensures r != null ==> r == categorySettingsByName[categoryName] && r.name == categoryName && r.Valid()
    {
      if categoryName in categorySettingsByName then categorySettingsByName[categoryName] else null
    }

    /** GetVolume(category): the category's volume, or 0 when it has no settings. */
    function GetVolume(category: Category): (v: real)
      requires TableValid()
      reads `categorySettings, `categorySettingsByName, `Settings, categorySettings, Settings
      ensures InUnit(v)
      ensures GetCategorySettings(category) == null ==> v == 0.0
      ensures GetCategorySettings(category) != null ==> v == GetCategorySettings(category).volume
    {
      var settings := GetCategorySettings(category);
      if settings == null then 0.0 else settings.volume
    }

    /** The sink a category's setting mirrors into, if it is the Global override. */
    function SinkOf(category: Category): MasterSink?
      reads `categorySettings, categorySettings
    {
      var settings := GetCategorySettingsAt(category);
      if settings == null then null else settings.masterSink
    }

    /** IsSoundEnabled getter: the Global volume is positive. */
    function IsSoundEnabled(): (enabled: bool)
      requires TableValid()
      reads `categorySettings, `categorySettingsByName, `Settings, categorySettings, Settings
      ensures enabled <==> GetCategorySettings(Global) != null && GetCategorySettings(Global).volume > 0.0
    {
      GetVolume(Global) > 0.0
    }

    /** Table slots as SaveCategories visits them. */
    ghost function Entries(): (es: seq<Option<SaveEntry>>)
      requires TableValid()
      reads `categorySettings, `categorySettingsByName, `Settings, categorySettings, Settings
      ensures |es| == categorySettings.Length
      ensures forall i :: 0 <= i < |es| ==>
                es[i] == if categorySettings[i] == null then None
                         else Some(SaveEntry(categorySettings[i].playerPrefsKey, categorySettings[i].State()))
    {
      var table, settings := categorySettings, Settings;
      seq(table.Length, i requires 0 <= i < table.Length && (table[i] != null ==> table[i] in settings)
                          reads table, settings =>
        if table[i] == null then None
        else Some(SaveEntry(table[i].playerPrefsKey, table[i].State())))
    }

    /** Every slot saves under its own category's key, so no two slots share a key. */
    lemma EntriesHaveDistinctKeys()
      requires TableValid()
      ensures DistinctKeys(Entries())
    {
      var es := Entries();
      forall i, j | 0 <= i < j < |es| && es[i].Some? && es[j].Some?
        ensures es[i].value.key != es[j].value.key
      {
        PrefsKeyInjective(i, j);
      }
    }

    /** The expansion step of AddCategorySettings: a table too short for index is replaced by
        a copy of length max(index + 1, 2 * length) whose new slots are empty. */
    method ExpandFor(index: Category)
      requires TableValid()
      modifies `categorySettings
      ensures TableValid() && index < categorySettings.Length
      ensures index < old(categorySettings.Length) ==> categorySettings == old(categorySettings)
      ensures index >= old(categorySettings.Length) ==>
                fresh(categorySettings) &&
                categorySettings.Length == GrownLength(index, old(categorySettings.Length))
      ensures forall i :: 0 <= i < old(categorySettings.Length) ==> categorySettings[i] == old(categorySettings[i])
      ensures forall i :: old(categorySettings.Length) <= i < categorySettings.Length ==> categorySettings[i] == null
    {
      if index > categorySettings.Length - 1 {
        var newSize := GrownLength(index, categorySettings.Length);
        var newArray := Resized(categorySettings, newSize);
        categorySettings := newArray;
      }
    }

    /** The collection-creation step of LoadCategories: a table of exactly one empty slot per
        category value and a fresh, empty name dictionary. */
    method CreateCollections(count: nat)
      requires Valid()
      modifies `categorySettings, `categorySettingsByName
      ensures Valid() && fresh(categorySettings)
      ensures categorySettings.Length == count && categorySettingsByName == map[]
      ensures forall i :: 0 <= i < count ==> categorySettings[i] == null
    {
      categorySettings := new AudioCategorySettings?[count](_ => null);
      categorySettingsByName := map[];
      RegistryFramed();
    }

    /** AddCategorySettings(settings): grows the table to max(index + 1, 2 * length) when the
        category does not fit, stores the setting under its category and its name, and binds
        the manager's handler to its event once more. */
    method AddCategorySettings(settings: AudioCategorySettings)
      requires Valid() && settings.Valid()
      modifies `categorySettings, `categorySettingsByName, `Settings, categorySettings, settings
      ensures Valid()
      ensures Settings == old(Settings) + {settings}
      ensures settings.category < old(categorySettings.Length) ==> categorySettings == old(categorySettings)
      ensures settings.category >= old(categorySettings.Length) ==>
                fresh(categorySettings) &&
                categorySettings.Length == GrownLength(settings.category, old(categorySettings.Length))
      ensures categorySettings[settings.category] == settings
      ensures forall i :: 0 <= i < old(categorySettings.Length) && i != settings.category ==>
                categorySettings[i] == old(categorySettings[i])
      ensures forall i :: old(categorySettings.Length) <= i < categorySettings.Length && i != settings.category ==>
                categorySettings[i] == null
      ensures categorySettingsByName == old(categorySettingsByName)[settings.name := settings]
      ensures settings.boundHandlers == old(settings.boundHandlers) + 1 && settings.State() == old(settings.State())
    {
      var index := settings.category;
      ExpandFor(index);
      categorySettings[index] := settings;
      categorySettingsByName := categorySettingsByName[settings.name := settings];
      settings.boundHandlers := settings.boundHandlers + 1;
      Settings := Settings + {settings};
      RegistryFramed();
    }

    /** SaveCategories(): saves every non-empty slot in order, which writes each dirty
        category's volume under its key and leaves every other key alone. */
    method SaveCategories(prefs: PlayerPrefs)
      requires Valid()
      modifies prefs
      ensures prefs.floats == SaveAll(old(prefs.floats), Entries())
      ensures forall i ::
                0 <= i < categorySettings.Length && categorySettings[i] != null && categorySettings[i].hasChangedFromDefault
                ==> PrefsKey(i) in prefs.floats && prefs.floats[PrefsKey(i)] == categorySettings[i].volume
      ensures forall k :: !WritesKey(Entries(), k) ==>
                (k in prefs.floats <==> k in old(prefs.floats)) &&
                (k in old(prefs.floats) ==> prefs.floats[k] == old(prefs.floats)[k])
    {
      ghost var entries := Entries();
      var i := 0;
      while i < categorySettings.Length
        invariant 0 <= i <= categorySettings.Length
        invariant prefs.floats == SaveAll(old(prefs.floats), entries[..i])
      {
        var settings := categorySettings[i];
        assert entries[..i + 1][..i] == entries[..i];
        if settings != null {
          settings.Save(prefs);
        }
        i := i + 1;
      }
      assert entries[..i] == entries;
      EntriesHaveDistinctKeys();
      SaveAllEffect(old(prefs.floats), entries);
      forall i | 0 <= i < categorySettings.Length && categorySettings[i] != null &&
                 categorySettings[i].hasChangedFromDefault
        ensures PrefsKey(i) in prefs.floats && prefs.floats[PrefsKey(i)] == categorySettings[i].volume
      {
        assert entries[i].Some? && entries[i].value.state.dirty;
      }
    }

    /** ReApplyVolumes(): re-applies every slot in order; observably only the Global override
        acts, mirroring its volume into the sink. An empty slot raises a NullReferenceException
        that ends the loop. */
    method ReApplyVolumes() returns (faulted: bool)
      requires Valid()
      modifies Settings, SinkOf(Global)
      ensures Valid()
      ensures faulted <==> exists i :: 0 <= i < categorySettings.Length && categorySettings[i] == null
      ensures forall s :: s in old(Settings) ==> s.State() == old(s.State()) && s.boundHandlers == old(s.boundHandlers)
      ensures SinkOf(Global) != null ==> SinkOf(Global).volume == GetVolume(Global)
    {
      ghost var global := GetCategorySettingsAt(Global);
      ghost var sink := if global == null then null else global.masterSink;
      assert SinkOf(Global) == sink;
      var i := 0;
      while i < categorySettings.Length
        invariant 0 <= i <= categorySettings.Length
        invariant forall j :: 0 <= j < i ==> categorySettings[j] != null
        invariant TableValid()
        invariant forall s :: s in old(Settings) ==> s.State() == old(s.State()) && s.boundHandlers == old(s.boundHandlers)
        invariant i > 0 && sink != null ==> sink.volume == global.volume
      {
        var setting := categorySettings[i];
        if setting == null {
          assert i == 0 ==> global == null;
          RegistryFramed();
          return true;
        }
        var _ := setting.ReApplyVolume();
        i := i + 1;
      }
      RegistryFramed();
      return false;
    }

    /** UpdateVolumeListeners(category, prevVolume, newVolume): calls every registered
        listener in list order, catching what they raise. */
    method UpdateVolumeListeners(category: Category, prevVolume: real, newVolume: real)
      returns (deliveries: seq<Delivery>)
      requires RegistryValid()
      modifies Sources()`volume
      ensures RegistryValid()
      ensures Views() == NotifyAll(old(Views()), category, newVolume)
      ensures deliveries == Deliveries(old(Views()), category)
    {
      ghost var before := Views();
      ghost var listed := Listed();
      ListedDistinct();
      deliveries := [];
      var i := 0;
      while i < |volumeListeners|
        invariant 0 <= i <= |listed|
        invariant |deliveries| == i
        invariant forall j :: 0 <= j < i ==> deliveries[j] == Deliver(before[j], category)
        invariant forall j :: 0 <= j < |listed| ==>
                    listed[j].View() == if j < i then Notify(before[j], category, newVolume) else before[j]
      {
        var listener := volumeListeners[i].value;
        assert listener == listed[i];
        assert forall j :: 0 <= j < |listed| && j != i ==> listed[j].component != listener.component;
        var raised := listener.OnVolumeChanged(category, prevVolume, newVolume);
        deliveries := deliveries + [if raised then Caught else Delivered];
        i := i + 1;
      }
      ViewsOf(NotifyAll(before, category, newVolume));
    }

    /** OnCategoryVolumeChanged(settings, prevVolume, newVolume): the handler bound to every
        added setting; updates the listeners, then fires the static OnVolumeChanged event. */
    method OnCategoryVolumeChanged(settings: AudioCategorySettings, prevVolume: real, newVolume: real)
      returns (deliveries: seq<Delivery>)
      requires Valid()
      modifies onVolumeChanged, Sources()`volume
      ensures Valid()
      ensures deliveries == Deliveries(old(Views()), settings.category)
      ensures Views() == NotifyAll(old(Views()), settings.category, newVolume)
      ensures onVolumeChanged.invocations == old(onVolumeChanged.invocations) + [CategoryChange(settings.category, prevVolume, newVolume)]
    {
      var audioCategory := settings.category;
      deliveries := UpdateVolumeListeners(audioCategory, prevVolume, newVolume);
      onVolumeChanged.invocations := onVolumeChanged.invocations + [CategoryChange(audioCategory, prevVolume, newVolume)];
    }

    /** A setting raising its OnVolumeChanged event: the manager's handler runs once per
        binding. */
    method InvokeVolumeChanged(settings: AudioCategorySettings, event: Option<VS.Change>)
      requires Valid()
      modifies onVolumeChanged, Sources()`volume
      ensures Valid()
      ensures onVolumeChanged.invocations == old(onVolumeChanged.invocations) + Raised(settings.category, event, settings.boundHandlers)
      ensures Views() == NotifyLog(old(Views()), Raised(settings.category, event, settings.boundHandlers))
    {
      if event.None? {
        return;
      }
      var e := CategoryChange(settings.category, event.value.prev, event.value.next);
      var k := 0;
      while k < settings.boundHandlers
        invariant 0 <= k <= settings.boundHandlers
        invariant Valid()
        invariant onVolumeChanged.invocations == old(onVolumeChanged.invocations) + Repeat(e, k)
        invariant Views() == NotifyLog(old(Views()), Repeat(e, k))
      {
        ghost var viewsBefore := Views();
        var _ := OnCategoryVolumeChanged(settings, event.value.prev, event.value.next);
        assert Repeat(e, k + 1)[..k] == Repeat(e, k);
        assert Repeat(e, k + 1) == Repeat(e, k) + [e];
        k := k + 1;
      }
    }

    /** SetVolume(category, newVolume): nothing when the category has no settings, otherwise
        the setting's setter (dirtying), whose event reaches the listeners and the static
        event once per binding. */
    method SetVolume(category: Category, newVolume: real)
      requires Valid()
      modifies GetCategorySettings(category), SinkOf(category), Sources()`volume, onVolumeChanged
      ensures Valid()
      ensures old(GetCategorySettings(category)) == null ==>
                onVolumeChanged.invocations == old(onVolumeChanged.invocations) && Views() == old(Views())
      ensures var s := old(GetCategorySettings(category));
              s != null ==>
                var step := VS.SetVolume(old(s.State()), newVolume, false);
                var log := Raised(category, step.event, s.boundHandlers);
                && s.State() == step.state && s.boundHandlers == old(s.boundHandlers)
                && (s.masterSink != null ==> s.masterSink.volume == s.volume)
                && onVolumeChanged.invocations == old(onVolumeChanged.invocations) + log
                && Views() == NotifyLog(old(Views()), log)
                && (step.event.Some? ==> Views() == NotifyAll(old(Views()), category, s.volume))
                && (step.event.None? ==> Views() == old(Views()))
    {
      var settings := GetCategorySettings(category);
      if settings == null {
        return;
      }
      var event := settings.SetVolume(newVolume, false);
      assert Views() == old(Views());
      InvokeVolumeChanged(settings, event);
      if event.Some? {
        RepeatedDispatchIsOnce(old(Views()), CategoryChange(category, event.value.prev, event.value.next),
                               settings.boundHandlers);
      }
    }

    /** IsSoundEnabled setter: SetVolume(Global, 1 or 0). The Global volume ends within the
        engine's tolerance of the target, so sound is enabled exactly as asked when the Global
        setting exists. */
    method SetSoundEnabled(value: bool)
      requires Valid()
      modifies GetCategorySettings(Global), SinkOf(Global), Sources()`volume, onVolumeChanged
      ensures Valid()
      ensures old(GetCategorySettings(Global)) == null ==>
                !IsSoundEnabled() &&
                onVolumeChanged.invocations == old(onVolumeChanged.invocations) && Views() == old(Views())
      ensures var s := old(GetCategorySettings(Global));
              s != null ==>
                var step := VS.SetVolume(old(s.State()), if value then 1.0 else 0.0, false);
                var log := Raised(Global, step.event, s.boundHandlers);
                && s.State() == step.state && s.boundHandlers == old(s.boundHandlers)
                && (s.masterSink != null ==> s.masterSink.volume == s.volume)
                && onVolumeChanged.invocations == old(onVolumeChanged.invocations) + log
                && Views() == NotifyLog(old(Views()), log)
                && (step.event.Some? ==> Views() == NotifyAll(old(Views()), Global, s.volume))
                && (step.event.None? ==> Views() == old(Views()))
      ensures old(GetCategorySettings(Global)) != null && value ==>
                IsSoundEnabled() && Approx(1.0, GetVolume(Global))
      ensures old(GetCategorySettings(Global)) != null && !value ==>
                GetVolume(Global) < AbsoluteTolerance
    {
      SetVolume(Global, if value then 1.0 else 0.0);
      ApproxReflexive(1.0);
    }

    /** SetDefaultVolume(category, defaultVolume): no null check, so a category without
        settings faults with a NullReferenceException. */
    method SetDefaultVolume(category: Category, defaultVolume: real) returns (faulted: bool)
      requires Valid()
      modifies GetCategorySettings(category), SinkOf(category), Sources()`volume, onVolumeChanged
      ensures Valid()
      ensures faulted <==> old(GetCategorySettings(category)) == null
      ensures faulted ==> onVolumeChanged.invocations == old(onVolumeChanged.invocations) && Views() == old(Views())
      ensures var s := old(GetCategorySettings(category));
              s != null ==>
                var step := VS.SetDefaultVolume(old(s.State()), defaultVolume);
                var log := Raised(category, step.event, s.boundHandlers);
                && s.State() == step.state && s.boundHandlers == old(s.boundHandlers)
                && (s.masterSink != null && !old(s.hasChangedFromDefault) ==> s.masterSink.volume == s.volume)
                && (s.masterSink != null && old(s.hasChangedFromDefault) ==>
                      s.masterSink.volume == old(s.masterSink.volume))
                && onVolumeChanged.invocations == old(onVolumeChanged.invocations) + log
                && Views() == NotifyLog(old(Views()), log)
    {
      var settings := GetCategorySettings(category);
      if settings == null {
        return true;
      }
      var event := settings.SetDefaultVolume(defaultVolume);
      assert Views() == old(Views());
      InvokeVolumeChanged(settings, event);
      return false;
    }

    /** GetFreeVolumeListenerNode(volumeListener): pops a recycled node, or allocates one when
        the pool is empty, and stores the listener in it. */
    method GetFreeVolumeListenerNode(volumeListener: AudioCategorizer) returns (node: ListenerNode)
      modifies `volumeListenerNodePool, Maybe(PoolTop())`value
      ensures node.value == volumeListener
      ensures old(volumeListenerNodePool) != [] ==>
                node == old(PoolTop()) &&
                volumeListenerNodePool == old(volumeListenerNodePool[..|volumeListenerNodePool| - 1])
      ensures old(volumeListenerNodePool) == [] ==> fresh(node) && volumeListenerNodePool == []
    {
      if |volumeListenerNodePool| > 0 {
        node := volumeListenerNodePool[|volumeListenerNodePool| - 1];
        volumeListenerNodePool := volumeListenerNodePool[..|volumeListenerNodePool| - 1];
        node.value := volumeListener;
      } else {
        node := new ListenerNode(volumeListener);
      }
    }

    /** AddVolumeListener(volumeListener): a no-op for a registered listener; otherwise takes
        a free node and appends it to the list. */
    method AddVolumeListener(volumeListener: AudioCategorizer)
      requires Valid()
      requires volumeListener.registryNode == null || volumeListener in Listeners()
      requires volumeListener.component in Sources() ==> volumeListener in Listeners()
      modifies `volumeListeners, `volumeListenerNodePool, `registry
      modifies volumeListener`registryNode, Maybe(PoolTop())`value
      ensures Valid()
      ensures volumeListener in Listeners() && volumeListener.View() == old(volumeListener.View())
      ensures old(volumeListener.registryNode) != null ==>
                volumeListener.registryNode == old(volumeListener.registryNode) &&
                unchanged(`volumeListeners, `volumeListenerNodePool, `registry) &&
                Views() == old(Views())
      ensures old(volumeListener.registryNode) == null ==>
                && volumeListener.registryNode != null
                && registry == Appended(old(registry), volumeListener, volumeListener.registryNode)
                && volumeListeners == old(volumeListeners) + [volumeListener.registryNode]
                && Listeners() == old(Listeners()) + {volumeListener}
                && Views() == old(Views()) + [volumeListener.View()]
                && (old(volumeListenerNodePool) != [] ==> volumeListener.registryNode == old(PoolTop()))
                && (old(volumeListenerNodePool) == [] ==> fresh(volumeListener.registryNode))
    {
      var node := volumeListener.registryNode;
      if node != null {
        return;
      }
      Unregistered(volumeListener);
      node := GetFreeVolumeListenerNode(volumeListener);
      volumeListener.registryNode := node;
      volumeListeners := volumeListeners + [node];
      registry := Appended(registry, volumeListener, node);
      Linked(volumeListener, node);
    }

    /** RemoveVolumeListener(volumeListener): a no-op for an unregistered listener; otherwise
        unlinks its node, clears both references and pushes the node on the pool. */
    method RemoveVolumeListener(volumeListener: AudioCategorizer)
      requires Valid()
      requires volumeListener.registryNode == null || volumeListener in Listeners()
      modifies `volumeListeners, `volumeListenerNodePool, `registry
      modifies volumeListener`registryNode, Maybe(volumeListener.registryNode)`value
      ensures Valid()
      ensures volumeListener.registryNode == null && volumeListener !in Listeners()
      ensures volumeListener.View() == old(volumeListener.View())
      ensures old(volumeListener.registryNode) == null ==>
                unchanged(`volumeListeners, `volumeListenerNodePool, `registry) && Views() == old(Views())
      ensures old(volumeListener.registryNode) != null ==>
                && registry == Removed(old(registry), volumeListener)
                && old(volumeListeners[RemovedAt(registry, volumeListener)]) == old(volumeListener.registryNode)
                && volumeListeners == old(volumeListeners[..RemovedAt(registry, volumeListener)] +
                                          volumeListeners[RemovedAt(registry, volumeListener) + 1..])
                && volumeListenerNodePool == old(volumeListenerNodePool) + [old(volumeListener.registryNode)]
                && old(volumeListener.registryNode).value == null
                && Listeners() == old(Listeners()) - {volumeListener}
                && Views() == old(Views()[..RemovedAt(registry, volumeListener)] +
                                  Views()[RemovedAt(registry, volumeListener) + 1..])
    {
      var node := volumeListener.registryNode;
      Unregistered(volumeListener);
      if node == null {
        return;
      }
      Registered(volumeListener);
      var k := IndexOf(volumeListeners, node);
      assert LiveAt(registry, k);
      volumeListeners := volumeListeners[..k] + volumeListeners[k + 1..];
      volumeListener.registryNode := null;
      node.value := null;
      volumeListenerNodePool := volumeListenerNodePool + [node];
      registry := Removed(registry, volumeListener);
      Unlinked(volumeListener, node);
    }
  }
}
