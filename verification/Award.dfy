/** The award index: a map of slots built in one pass over the log, which must answer like a naive scan of it. */
module Award {
  import opened Options

  // ------------------------------------------------------------- definitions and logs

  datatype Kind = Dxcc | Field | OtherKind
  datatype Rule = RuleWorked | RuleConfirmed
  datatype Status = Unworked | WorkedUnconfirmed | Confirmed | Unknown
  datatype ModeClass = NoClass | Cw | Phone | Data | OtherClass(name: string)
  datatype Mode = CwMode | Usb | Lsb | Am | Fm | DataMode | NoMode

  function ClassOf(m: Mode): ModeClass {
    match m
    case CwMode => Cw
    case DataMode => Data
    case NoMode => NoClass
    case _ => Phone
  }

  /** A slot is keyed by an entity number or by a state. */
  datatype Key = Entity(adif: int) | Item(state: string)

  datatype Definition = Definition(kind: Kind, rule: Rule, entities: seq<int>, items: seq<string>, bands: seq<string>,
                                   modes: seq<ModeClass>, perBandSet: Option<bool>, perMode: bool)
  {
    predicate PerBand() { perBandSet.GetOr(true) }
    predicate AnyMode() { modes == [] && !perMode }
    predicate InBands(b: string) { bands == [] || b in bands }
    predicate AllowsEntity(adif: int) { entities == [] || adif in entities }
    predicate AllowsItem(k: string) { items == [] || k in items }
  }

  datatype Entry = Entry(call: string, dxcc: int, state: string, band: string, modeClass: ModeClass, confirmed: bool)

  /** club: for each entity the bands of the confirmation matrix, true where confirmed. */
  datatype Log = Log(loaded: bool, entries: seq<Entry>, clubLoaded: bool, club: map<int, map<string, bool>>)

  // ------------------------------------------------------------- what counts for an award

  /** One thing that counts: a key on a band in a mode class, confirmed or only worked. */
  datatype Fact = Fact(key: Key, band: string, modeClass: ModeClass, confirmed: bool)

  function EntryKey(d: Definition, e: Entry): Option<Key> {
    match d.kind
    case Dxcc => if e.dxcc > 0 then Some(Entity(e.dxcc)) else None
    case Field =>
      if e.state == "" || (e.dxcc != 0 && !d.AllowsEntity(e.dxcc)) || !d.AllowsItem(e.state) then None
      else Some(Item(e.state))
    case OtherKind => None
  }

  predicate Counts(d: Definition, e: Entry) {
    && d.InBands(e.band)
    && (d.AnyMode() || (e.modeClass != NoClass && (d.modes == [] || e.modeClass in d.modes)))
    && EntryKey(d, e).Some?
  }

  function FactOf(d: Definition, e: Entry): Fact
    requires Counts(d, e)
  {
    Fact(EntryKey(d, e).value, e.band, e.modeClass, e.confirmed)
  }

  function EntryFacts(d: Definition, es: seq<Entry>): set<Fact> { set e | e in es && Counts(d, e) :: FactOf(d, e) }

  function CellFacts(d: Definition, adif: int, cells: map<string, bool>): set<Fact> {
    set b | b in cells && cells[b] && d.InBands(b) :: Fact(Entity(adif), b, NoClass, true)
  }

  function ClubFacts(d: Definition, club: map<int, map<string, bool>>): set<Fact> {
    if d.kind == Dxcc && d.AnyMode() then set adif, f | adif in club && f in CellFacts(d, adif, club[adif]) :: f else {}
  }

  /** Everything in the log that counts for the award. */
  function Facts(d: Definition, l: Log): set<Fact> { EntryFacts(d, l.entries) + ClubFacts(d, l.club) }

  // ------------------------------------------------------------- slots

  datatype SlotKey = SlotKey(key: Key, band: string, mode: ModeClass)

  function SlotOf(d: Definition, key: Key, band: string, modeClass: ModeClass): SlotKey {
    SlotKey(key, if d.PerBand() then band else "", if d.perMode then modeClass else NoClass)
  }

  ghost predicate Fills(d: Definition, f: Fact, k: SlotKey) { SlotOf(d, f.key, f.band, f.modeClass) == k }

  /** The naive scan: some fact fills the slot; some confirmed one does. */
  ghost predicate WorkedIn(d: Definition, fs: set<Fact>, k: SlotKey) { exists f :: f in fs && Fills(d, f, k) }
  ghost predicate ConfirmedIn(d: Definition, fs: set<Fact>, k: SlotKey) {
    exists f :: f in fs && Fills(d, f, k) && f.confirmed
  }

  /** The key is worked, or confirmed, in some slice. */
  ghost predicate KeyWorked(fs: set<Fact>, key: Key) { exists f :: f in fs && f.key == key }
  ghost predicate KeyConfirmed(fs: set<Fact>, key: Key) { exists f :: f in fs && f.key == key && f.confirmed }

  ghost function Standing(d: Definition, fs: set<Fact>, k: SlotKey): Status {
    if ConfirmedIn(d, fs, k) then Confirmed else if WorkedIn(d, fs, k) then WorkedUnconfirmed else Unworked
  }

  // ------------------------------------------------------------- the index

  datatype Index = Index(def: Definition, loaded: bool, slots: map<SlotKey, Status>, everConfirm: set<Key>,
                         everWorked: set<Key>, callState: map<string, string>)

  /** The index answers like a naive scan of the facts. */
  ghost predicate Agrees(ix: Index, fs: set<Fact>) {
    && (forall k :: k in ix.slots <==> WorkedIn(ix.def, fs, k))
    && (forall k :: k in ix.slots ==> ix.slots[k] == Standing(ix.def, fs, k))
    && (forall key :: key in ix.everWorked <==> KeyWorked(fs, key))
    && (forall key :: key in ix.everConfirm <==> KeyConfirmed(fs, key))
  }

  function Noted(ix: Index, f: Fact): Index {
    var k := SlotOf(ix.def, f.key, f.band, f.modeClass);
    var confirmed := f.confirmed || (k in ix.slots && ix.slots[k] == Confirmed);
    ix.(slots := ix.slots[k := if confirmed then Confirmed else WorkedUnconfirmed],
        everWorked := ix.everWorked + {f.key},
        everConfirm := if f.confirmed then ix.everConfirm + {f.key} else ix.everConfirm)
  }

  /** Noting one more fact keeps the index in agreement, whatever the order. */
  lemma {:induction false} NotingAgrees(ix: Index, fs: set<Fact>, f: Fact)
    requires Agrees(ix, fs)
    ensures Agrees(Noted(ix, f), fs + {f})
  {
    var d, k0 := ix.def, SlotOf(ix.def, f.key, f.band, f.modeClass);
    hide WorkedIn, ConfirmedIn, KeyWorked, KeyConfirmed;
    forall k ensures WorkedIn(d, fs + {f}, k) == (WorkedIn(d, fs, k) || k == k0)
             ensures ConfirmedIn(d, fs + {f}, k) == (ConfirmedIn(d, fs, k) || (k == k0 && f.confirmed)) {
      AddingFills(d, fs, f, k);
    }
    forall key ensures KeyWorked(fs + {f}, key) == (KeyWorked(fs, key) || key == f.key)
               ensures KeyConfirmed(fs + {f}, key) == (KeyConfirmed(fs, key) || (key == f.key && f.confirmed)) {
      AddingKeys(fs, f, key);
    }
    ConfirmedInWorked(d, fs, k0);
  }

  lemma {:induction false} AddingKeys(fs: set<Fact>, f: Fact, key: Key)
    ensures KeyWorked(fs + {f}, key) == (KeyWorked(fs, key) || key == f.key)
    ensures KeyConfirmed(fs + {f}, key) == (KeyConfirmed(fs, key) || (key == f.key && f.confirmed))
  {}

  lemma {:induction false} AddingFills(d: Definition, fs: set<Fact>, f: Fact, k: SlotKey)
    ensures WorkedIn(d, fs + {f}, k) == (WorkedIn(d, fs, k) || Fills(d, f, k))
    ensures ConfirmedIn(d, fs + {f}, k) == (ConfirmedIn(d, fs, k) || (Fills(d, f, k) && f.confirmed))
  {}

  /** The state the log holds for a call: that of the last entry that gives one. */
  function StateOf(es: seq<Entry>, call: string): string {
    if es == [] then ""
    else
      var e := es[|es| - 1];
      if e.call == call && call != "" && e.state != "" then e.state else StateOf(es[..|es| - 1], call)
  }

  ghost predicate KnowsStates(ix: Index, es: seq<Entry>) {
    forall call :: (if call in ix.callState then ix.callState[call] else "") == StateOf(es, call)
  }

  predicate LoadedFor(d: Definition, l: Log) { l.loaded || (d.kind == Dxcc && l.clubLoaded) }

  // ------------------------------------------------------------- candidates

  /** state is trimmed and upper case; adif is 0 when the entity is not resolved. */
  datatype Input = Input(call: string, band: string, mode: Mode, adif: int, state: string)

  datatype Hit = Hit(key: Option<Key>, band: string, mode: ModeClass, status: Status, needed: bool, first: bool, atno: bool)

  predicate Satisfied(r: Rule, s: Status) { s == Confirmed || (r == RuleWorked && s == WorkedUnconfirmed) }

  predicate Sliced(d: Definition) { d.modes != [] || d.perMode }

  /** The candidate's key: outside the award, not to be told yet, or known. */
  datatype Keyed = Outside | Untold | Told(key: Key)

  function KeyOf(d: Definition, loaded: bool, i: Input, logState: string): Keyed {
    match d.kind
    case Dxcc => if !loaded || i.adif == 0 then Untold else Told(Entity(i.adif))
    case Field =>
      if !loaded || i.adif == 0 then Untold
      else if !d.AllowsEntity(i.adif) then Outside
      else
        var st := if i.state != "" then i.state else logState;
        if st == "" then Untold else if !d.AllowsItem(st) then Outside else Told(Item(st))
    case OtherKind => Outside
  }

  function Evaluate(ix: Index, i: Input): Option<Hit> {
    var d := ix.def;
    var modeClass := ClassOf(i.mode);
    if !d.InBands(i.band) then None
    else if modeClass != NoClass && d.modes != [] && modeClass !in d.modes then None
    else
      var band := if d.PerBand() then i.band else "";
      var mode := if Sliced(d) then modeClass else NoClass;
      match KeyOf(d, ix.loaded, i, if i.call in ix.callState then ix.callState[i.call] else "")
      case Outside => None
      case Untold => Some(Hit(None, band, mode, Unknown, false, false, false))
      case Told(key) =>
        if Sliced(d) && modeClass == NoClass then Some(Hit(Some(key), band, mode, Unknown, false, false, false))
        else
          var k := SlotOf(d, key, i.band, modeClass);
          var st := if k in ix.slots then ix.slots[k] else Unworked;
          var needed := !Satisfied(d.rule, st);
          Some(Hit(Some(key), band, mode, st, needed, needed && key !in ix.everConfirm, needed && key !in ix.everWorked))
  }

  /** The slot a candidate is valued for, once its key and class are told. */
  function CandidateSlot(d: Definition, i: Input, key: Key): SlotKey { SlotOf(d, key, i.band, ClassOf(i.mode)) }

  // ------------------------------------------------------------- agreement with the naive scan

  /** Some entry of the log that counts, or some confirmed Club Log cell, is for this slot. */
  ghost predicate LogWorks(d: Definition, l: Log, k: SlotKey) {
    || (exists e :: e in l.entries && Counts(d, e) && Fills(d, FactOf(d, e), k))
    || ClubConfirms(d, l, k)
  }

  ghost predicate LogConfirms(d: Definition, l: Log, k: SlotKey) {
    || (exists e :: e in l.entries && e.confirmed && Counts(d, e) && Fills(d, FactOf(d, e), k))
    || ClubConfirms(d, l, k)
  }

  ghost predicate ClubConfirms(d: Definition, l: Log, k: SlotKey) {
    && d.kind == Dxcc && d.AnyMode()
    && exists adif, b :: adif in l.club && b in l.club[adif] && l.club[adif][b] && d.InBands(b)
                         && SlotOf(d, Entity(adif), b, NoClass) == k
  }

  lemma {:induction false} FactsAreTheLog(d: Definition, l: Log, k: SlotKey)
    ensures WorkedIn(d, Facts(d, l), k) <==> LogWorks(d, l, k)
    ensures ConfirmedIn(d, Facts(d, l), k) <==> LogConfirms(d, l, k)
  {
    ClubFactsAreCells(d, l, k);
    EntryFactsAreEntries(d, l, k);
    var fs, es, cs := Facts(d, l), EntryFacts(d, l.entries), ClubFacts(d, l.club);
    if WorkedIn(d, fs, k) { var f :| f in fs && Fills(d, f, k); assert f in es || f in cs; }
    if ConfirmedIn(d, fs, k) { var f :| f in fs && Fills(d, f, k) && f.confirmed; assert f in es || f in cs; }
    if WorkedIn(d, es, k) { var f :| f in es && Fills(d, f, k); assert f in fs; }
    if ConfirmedIn(d, es, k) { var f :| f in es && Fills(d, f, k) && f.confirmed; assert f in fs; }
    if WorkedIn(d, cs, k) { var f :| f in cs && Fills(d, f, k); assert f in fs; }
    if ConfirmedIn(d, cs, k) { var f :| f in cs && Fills(d, f, k) && f.confirmed; assert f in fs; }
  }

  lemma {:induction false} EntryFactsAreEntries(d: Definition, l: Log, k: SlotKey)
    ensures WorkedIn(d, EntryFacts(d, l.entries), k) <==> exists e :: e in l.entries && Counts(d, e) && Fills(d, FactOf(d, e), k)
    ensures ConfirmedIn(d, EntryFacts(d, l.entries), k)
        <==> exists e :: e in l.entries && e.confirmed && Counts(d, e) && Fills(d, FactOf(d, e), k)
  {}

  lemma {:induction false} ClubFactsAreCells(d: Definition, l: Log, k: SlotKey)
    ensures WorkedIn(d, ClubFacts(d, l.club), k) <==> ClubConfirms(d, l, k)
    ensures ConfirmedIn(d, ClubFacts(d, l.club), k) <==> ClubConfirms(d, l, k)
  {
    if ClubConfirms(d, l, k) {
      var adif, b :| adif in l.club && b in l.club[adif] && l.club[adif][b] && d.InBands(b)
                     && SlotOf(d, Entity(adif), b, NoClass) == k;
      var f := Fact(Entity(adif), b, NoClass, true);
      assert f in CellFacts(d, adif, l.club[adif]);
      assert f in ClubFacts(d, l.club) && Fills(d, f, k);
    }
  }

  /** An index of a log: what Build produces. */
  ghost predicate Indexes(ix: Index, d: Definition, l: Log) {
    ix.def == d && ix.loaded == LoadedFor(d, l) && Agrees(ix, Facts(d, l)) && KnowsStates(ix, l.entries)
  }

  /** A candidate whose slot can be told gets the naive scan's answer: confirmed exactly when an entry or a Club
      Log cell for the slot is, worked when one is there but none is confirmed, else unworked; a first for the
      award exactly when its key is confirmed, or worked, in no slice at all. */
  lemma {:induction false} EvaluateIsNaive(ix: Index, d: Definition, l: Log, i: Input)
    requires Indexes(ix, d, l) && Evaluate(ix, i).Some? && Evaluate(ix, i).value.status != Unknown
    ensures var h := Evaluate(ix, i).value; h.key.Some? && var k := CandidateSlot(d, i, h.key.value);
      && Told(h.key.value) == KeyOf(d, LoadedFor(d, l), i, StateOf(l.entries, i.call))
      && (h.status == Confirmed <==> LogConfirms(d, l, k))
      && (h.status == WorkedUnconfirmed <==> LogWorks(d, l, k) && !LogConfirms(d, l, k))
      && (h.status == Unworked <==> !LogWorks(d, l, k))
      && (h.needed <==> !(LogConfirms(d, l, k) || (d.rule == RuleWorked && LogWorks(d, l, k))))
      && (h.first <==> h.needed && forall s: SlotKey :: s.key == h.key.value ==> !LogConfirms(d, l, s))
      && (h.atno <==> h.needed && forall s: SlotKey :: s.key == h.key.value ==> !LogWorks(d, l, s))
  {
    var h := Evaluate(ix, i).value;
    var key := h.key.value;
    var k := CandidateSlot(d, i, key);
    FactsAreTheLog(d, l, k);
    ConfirmedInWorked(d, Facts(d, l), k);
    EverIsSomeSlot(ix, d, l, key);
  }

  lemma {:induction false} ConfirmedInWorked(d: Definition, fs: set<Fact>, k: SlotKey)
    ensures ConfirmedIn(d, fs, k) ==> WorkedIn(d, fs, k)
  {}

  lemma {:induction false} EverIsSomeSlot(ix: Index, d: Definition, l: Log, key: Key)
    requires Indexes(ix, d, l)
    ensures key in ix.everWorked <==> exists s: SlotKey :: s.key == key && LogWorks(d, l, s)
    ensures key in ix.everConfirm <==> exists s: SlotKey :: s.key == key && LogConfirms(d, l, s)
  {
    var fs := Facts(d, l);
    if key in ix.everWorked {
      var f :| f in fs && f.key == key;
      var s := SlotOf(d, f.key, f.band, f.modeClass);
      assert Fills(d, f, s);
      FactsAreTheLog(d, l, s);
    }
    if s: SlotKey :| s.key == key && LogWorks(d, l, s) { FactsAreTheLog(d, l, s); }
    if key in ix.everConfirm {
      var f :| f in fs && f.key == key && f.confirmed;
      var s := SlotOf(d, f.key, f.band, f.modeClass);
      assert Fills(d, f, s);
      FactsAreTheLog(d, l, s);
    }
    if s: SlotKey :| s.key == key && LogConfirms(d, l, s) { FactsAreTheLog(d, l, s); }
  }

  /** An all-time new one is a first for the award, and a first for the award is needed. */
  lemma {:induction false} AtnoIsFreshIsNeeded(ix: Index, d: Definition, l: Log, i: Input)
    requires Indexes(ix, d, l) && Evaluate(ix, i).Some?
    ensures var h := Evaluate(ix, i).value; (h.atno ==> h.first) && (h.first ==> h.needed)
  {}

  // ------------------------------------------------------------- order and growth

  /** Same entries in any order, same Club Log cells: same slots, same firsts. */
  lemma {:induction false} OrderDoesNotMatter(ix: Index, jx: Index, d: Definition, l: Log, m: Log)
    requires Indexes(ix, d, l) && Indexes(jx, d, m)
    requires m.club == l.club && forall e :: e in l.entries <==> e in m.entries
    ensures ix.slots == jx.slots && ix.everConfirm == jx.everConfirm && ix.everWorked == jx.everWorked
  {
    assert EntryFacts(d, l.entries) == EntryFacts(d, m.entries);
    assert Facts(d, l) == Facts(d, m);
  }

  /** The log has grown: no entry and no confirmed Club Log cell has gone. */
  ghost predicate Grown(l: Log, m: Log) {
    && (forall e :: e in l.entries ==> e in m.entries)
    && (forall adif, b :: adif in l.club && b in l.club[adif] && l.club[adif][b]
                          ==> adif in m.club && b in m.club[adif] && m.club[adif][b])
    && (l.loaded ==> m.loaded) && (l.clubLoaded ==> m.clubLoaded)
  }

  lemma {:induction false} FactsGrow(d: Definition, l: Log, m: Log)
    requires Grown(l, m)
    ensures Facts(d, l) <= Facts(d, m)
  {
    assert EntryFacts(d, l.entries) <= EntryFacts(d, m.entries);
    if d.kind == Dxcc && d.AnyMode() {
      forall f | f in ClubFacts(d, l.club) ensures f in ClubFacts(d, m.club) {
        var adif :| adif in l.club && f in CellFacts(d, adif, l.club[adif]);
        assert f in CellFacts(d, adif, m.club[adif]);
      }
    }
  }

  function SlotStatus(ix: Index, k: SlotKey): Status { if k in ix.slots then ix.slots[k] else Unworked }

  /** A slot that satisfies the rule satisfies it in every larger log, and a key that is no first never becomes one. */
  lemma {:induction false} SlotsStaySatisfied(ix: Index, jx: Index, d: Definition, l: Log, m: Log, k: SlotKey)
    requires Indexes(ix, d, l) && Indexes(jx, d, m) && Grown(l, m)
    ensures Satisfied(d.rule, SlotStatus(ix, k)) ==> Satisfied(d.rule, SlotStatus(jx, k))
    ensures SlotStatus(jx, k) != Unknown
    ensures ix.everConfirm <= jx.everConfirm && ix.everWorked <= jx.everWorked
  {
    var fs, gs := Facts(d, l), Facts(d, m);
    FactsGrow(d, l, m);
    if ConfirmedIn(d, fs, k) { var f :| f in fs && Fills(d, f, k) && f.confirmed; assert f in gs; }
    if WorkedIn(d, fs, k) { var f :| f in fs && Fills(d, f, k); assert f in gs; }
    ConfirmedInWorked(d, gs, k);
    forall key | key in ix.everConfirm ensures key in jx.everConfirm { var f :| f in fs && f.key == key && f.confirmed; assert f in gs; }
    forall key | key in ix.everWorked ensures key in jx.everWorked { var f :| f in fs && f.key == key; assert f in gs; }
  }

  /** So for a candidate: what is not needed stays not needed as the log grows, unless the growing log now tells
      another state for its call, which only matters when the candidate brings no state of its own. */
  lemma {:induction false} CandidateStaysSatisfied(ix: Index, jx: Index, d: Definition, l: Log, m: Log, i: Input)
    requires Indexes(ix, d, l) && Indexes(jx, d, m) && Grown(l, m)
    requires Evaluate(ix, i).Some? && Evaluate(ix, i).value.status != Unknown
    requires d.kind == Dxcc || i.state != "" || StateOf(l.entries, i.call) == StateOf(m.entries, i.call)
    ensures var h := Evaluate(ix, i).value; Evaluate(jx, i).Some? && var g := Evaluate(jx, i).value;
      && g.key == h.key && g.status != Unknown
      && (!h.needed ==> !g.needed) && (g.first ==> h.first) && (g.atno ==> h.atno)
  {
    hide Agrees, Facts, KeyOf, StateOf;
    var h := Evaluate(ix, i).value;
    assert KeyOf(d, jx.loaded, i, StateOf(m.entries, i.call)) == KeyOf(d, ix.loaded, i, StateOf(l.entries, i.call)) by {
      KeyStays(d, ix.loaded, jx.loaded, i, StateOf(l.entries, i.call), StateOf(m.entries, i.call));
    }
    SlotsStaySatisfied(ix, jx, d, l, m, CandidateSlot(d, i, h.key.value));
  }

  lemma {:induction false} KeyStays(d: Definition, loaded: bool, later: bool, i: Input, st: string, laterSt: string)
    requires KeyOf(d, loaded, i, st).Told? && (loaded ==> later)
    requires d.kind == Dxcc || i.state != "" || st == laterSt
    ensures KeyOf(d, later, i, laterSt) == KeyOf(d, loaded, i, st)
  {}

  /** Exactly which larger logs revive a candidate that was not needed: those that tell another state for its call, of an
      award over states, when it brings none of its own, that state is in the award, and its slot is not satisfied. */
  lemma {:induction false} RevivedExactlyWhen(ix: Index, jx: Index, d: Definition, l: Log, m: Log, i: Input)
    requires Indexes(ix, d, l) && Indexes(jx, d, m) && Grown(l, m)
    requires Evaluate(ix, i).Some? && Evaluate(ix, i).value.status != Unknown && !Evaluate(ix, i).value.needed
    ensures Evaluate(jx, i).Some? && Evaluate(jx, i).value.needed <==>
      && d.kind == Field && i.state == ""
      && var st := StateOf(m.entries, i.call);
      && st != StateOf(l.entries, i.call) && st != "" && d.AllowsItem(st)
      && var k := CandidateSlot(d, i, Item(st));
      !LogConfirms(d, m, k) && !(d.rule == RuleWorked && LogWorks(d, m, k))
  {
    hide Agrees, Facts, StateOf, LogWorks, LogConfirms;
    if d.kind == Dxcc || i.state != "" || StateOf(l.entries, i.call) == StateOf(m.entries, i.call) {
      CandidateStaysSatisfied(ix, jx, d, l, m, i);
    } else {
      MovedCandidate(ix, jx, d, l, m, i);
      if Evaluate(jx, i).Some? && Evaluate(jx, i).value.status != Unknown { EvaluateIsNaive(jx, d, m, i); }
    }
  }

  lemma {:induction false} MovedCandidate(ix: Index, jx: Index, d: Definition, l: Log, m: Log, i: Input)
    requires Indexes(ix, d, l) && Indexes(jx, d, m) && Grown(l, m) && d.kind == Field && i.state == ""
    requires Evaluate(ix, i).Some? && Evaluate(ix, i).value.status != Unknown
    ensures var st := StateOf(m.entries, i.call);
      && (Evaluate(jx, i).Some? && Evaluate(jx, i).value.status != Unknown <==> st != "" && d.AllowsItem(st))
      && (Evaluate(jx, i).Some? && Evaluate(jx, i).value.status != Unknown ==> Evaluate(jx, i).value.key == Some(Item(st)))
      && (Evaluate(jx, i).Some? && Evaluate(jx, i).value.status == Unknown ==> !Evaluate(jx, i).value.needed)
  {
    hide Facts, StateOf;
    if Told(Item(StateOf(m.entries, i.call))) == KeyOf(d, jx.loaded, i, StateOf(m.entries, i.call)) {
      SlotsStaySatisfied(ix, jx, d, l, m, CandidateSlot(d, i, Item(StateOf(m.entries, i.call))));
    }
  }

  const OVER_STATES := Definition(Field, RuleConfirmed, [], [], [], [], Some(false), false)
  const FIRST := Entry("A", 0, "X", "b", Cw, true)
  const LATER := Entry("A", 0, "Y", "b", Cw, false)
  const BEFORE := Log(true, [FIRST], false, map[])
  const AFTERWARDS := Log(true, [FIRST, LATER], false, map[])

  /** Without a state of its own a candidate can become needed again: a later entry for its call moves it to
      another state. Here an award over states, confirmed for the first state and only worked in the second. */
  lemma {:induction false} StateChangeCanRevive(ix: Index, jx: Index)
    requires Indexes(ix, OVER_STATES, BEFORE) && Indexes(jx, OVER_STATES, AFTERWARDS)
    ensures Grown(BEFORE, AFTERWARDS)
    ensures var i := Input("A", "b", CwMode, 291, "");
      && Evaluate(ix, i).Some? && !Evaluate(ix, i).value.needed && Evaluate(ix, i).value.status == Confirmed
      && Evaluate(jx, i).Some? && Evaluate(jx, i).value.needed && Evaluate(jx, i).value.status == WorkedUnconfirmed
  {
    hide Agrees, Facts, LogWorks, LogConfirms, Standing;
    ReviveStates();
    SlotBefore(ix);
    SlotAfterwards(jx);
  }

  lemma {:induction false} ReviveStates()
    ensures StateOf(BEFORE.entries, "A") == "X" && StateOf(AFTERWARDS.entries, "A") == "Y"
  {}

  lemma {:induction false} SlotBefore(ix: Index)
    requires Indexes(ix, OVER_STATES, BEFORE)
    ensures SlotStatus(ix, SlotOf(OVER_STATES, Item("X"), "b", Cw)) == Confirmed
  {
    var d, k := OVER_STATES, SlotOf(OVER_STATES, Item("X"), "b", Cw);
    FactsAreTheLog(d, BEFORE, k);
    assert FIRST in BEFORE.entries && Fills(d, FactOf(d, FIRST), k);
    ConfirmedInWorked(d, Facts(d, BEFORE), k);
  }

  lemma {:induction false} SlotAfterwards(jx: Index)
    requires Indexes(jx, OVER_STATES, AFTERWARDS)
    ensures SlotStatus(jx, SlotOf(OVER_STATES, Item("Y"), "b", Cw)) == WorkedUnconfirmed
  {
    var d, k := OVER_STATES, SlotOf(OVER_STATES, Item("Y"), "b", Cw);
    FactsAreTheLog(d, AFTERWARDS, k);
    assert LATER in AFTERWARDS.entries && Fills(d, FactOf(d, LATER), k);
    assert !LogConfirms(d, AFTERWARDS, k);
  }

  // ------------------------------------------------------------- the index as it is built

  class SlotIndex {
    const def: Definition
    var loaded: bool
    var slots: map<SlotKey, Status>
    var everConfirm: set<Key>
    var everWorked: set<Key>
    var callState: map<string, string>

    function Now(): Index reads this { Index(def, loaded, slots, everConfirm, everWorked, callState) }

    constructor (d: Definition)
      ensures Now() == Index(d, false, map[], {}, {}, map[])
    {
      def, loaded, slots, everConfirm, everWorked, callState := d, false, map[], {}, {}, map[];
    }

    method Note(key: Key, band: string, modeClass: ModeClass, confirmed: bool)
      modifies `slots, `everConfirm, `everWorked
      ensures Now() == Noted(old(Now()), Fact(key, band, modeClass, confirmed))
    {
      var k := SlotKey(key, if def.PerBand() then band else "", if def.perMode then modeClass else NoClass);
      everWorked := everWorked + {key};
      var st := WorkedUnconfirmed;
      if confirmed {
        st := Confirmed;
        everConfirm := everConfirm + {key};
      }
      if k !in slots || slots[k] != Confirmed { slots := slots[k := st]; }
    }

    method NoteEntries(l: Log)
      requires Agrees(Now(), {}) && KnowsStates(Now(), [])
      modifies `slots, `everConfirm, `everWorked, `callState
      ensures Agrees(Now(), EntryFacts(def, l.entries)) && KnowsStates(Now(), l.entries)
    {
      hide EntryFacts, Agrees, KnowsStates;
      assert EntryFacts(def, []) == {} by { NoEntryFacts(def); }
      for i := 0 to |l.entries|
        invariant Agrees(Now(), EntryFacts(def, l.entries[..i])) && KnowsStates(Now(), l.entries[..i])
      {
        assert l.entries[..i + 1] == l.entries[..i] + [l.entries[i]];
        NoteEntry(l.entries[..i], l.entries[i]);
      }
      assert l.entries[..|l.entries|] == l.entries;
    }

    method NoteEntry(ghost es: seq<Entry>, e: Entry)
      requires Agrees(Now(), EntryFacts(def, es)) && KnowsStates(Now(), es)
      modifies `slots, `everConfirm, `everWorked, `callState
      ensures Agrees(Now(), EntryFacts(def, es + [e])) && KnowsStates(Now(), es + [e])
    {
      hide EntryFacts;
      var anyMode := |def.modes| == 0 && !def.perMode;
      EntryFactsMore(def, es, e);
      NoteState(es, e);
      if !def.InBands(e.band) { return; }
      if !anyMode && (e.modeClass == NoClass || (|def.modes| > 0 && e.modeClass !in def.modes)) { return; }
      var key := EntryKey(def, e);
      if key.None? { return; }
      NotingAgrees(Now(), EntryFacts(def, es), FactOf(def, e));
      hide Agrees;
      Note(key.value, e.band, e.modeClass, e.confirmed);
    }

    method NoteState(ghost es: seq<Entry>, e: Entry)
      requires KnowsStates(Now(), es)
      modifies `callState
      ensures KnowsStates(Now(), es + [e])
    {
      assert (es + [e])[..|es|] == es;
      if e.call != "" && e.state != "" { callState := callState[e.call := e.state]; }
    }

    /** The matrix is gone through in whatever order its keys come. */
    method NoteClub(l: Log, ghost before: set<Fact>)
      requires Agrees(Now(), before)
      modifies `slots, `everConfirm, `everWorked
      ensures Agrees(Now(), before + ClubFacts(def, l.club))
    {
      ghost var done: set<Fact> := {};
      var anyMode := |def.modes| == 0 && !def.perMode;
      if def.kind == Dxcc && anyMode {
        var left := l.club.Keys;
        while left != {}
          invariant left <= l.club.Keys
          invariant Agrees(Now(), before + done)
          invariant forall f :: f in done <==> exists adif :: adif in l.club && adif !in left && f in CellFacts(def, adif, l.club[adif])
        {
          SomeMember(left);
          var adif :| adif in left;
          NoteCells(adif, l.club[adif], before + done);
          ghost var cells := CellFacts(def, adif, l.club[adif]);
          assert (before + done) + cells == before + (done + cells);
          done := done + cells;
          left := left - {adif};
        }
      }
      assert done == ClubFacts(def, l.club);
    }

    method NoteCells(adif: int, cells: map<string, bool>, ghost before: set<Fact>)
      requires Agrees(Now(), before)
      modifies `slots, `everConfirm, `everWorked
      ensures Agrees(Now(), before + CellFacts(def, adif, cells))
    {
      ghost var done: set<Fact> := {};
      var left := cells.Keys;
      assert before + done == before;
      while left != {}
        invariant left <= cells.Keys
        invariant Agrees(Now(), before + done)
        invariant forall f :: f in done <==> f in CellFacts(def, adif, cells) && f.band !in left
      {
        var b :| b in left;
        left := left - {b};
        if cells[b] && def.InBands(b) {
          ghost var f := Fact(Entity(adif), b, NoClass, true);
          NotingAgrees(Now(), before + done, f);
          assert (before + done) + {f} == before + (done + {f});
          Note(Entity(adif), b, NoClass, true);
          done := done + {f};
        }
      }
      assert done == CellFacts(def, adif, cells);
    }
  }

  lemma {:induction false} SomeMember(s: set<int>)
    requires s != {}
    ensures exists x :: x in s
  {
    assert (forall x :: x !in s) ==> s == {};
  }

  lemma {:induction false} NoEntryFacts(d: Definition)
    ensures EntryFacts(d, []) == {}
  {}

  lemma {:induction false} EntryFactsMore(d: Definition, es: seq<Entry>, e: Entry)
    ensures EntryFacts(d, es + [e]) == EntryFacts(d, es) + if Counts(d, e) then {FactOf(d, e)} else {}
  {}

  /** One pass over the log and one over the Club Log matrix give an index of the log. */
  method Build(d: Definition, l: Log) returns (ix: SlotIndex)
    ensures fresh(ix) && Indexes(ix.Now(), d, l)
  {
    ix := new SlotIndex(d);
    ix.loaded := if d.kind == Dxcc then l.loaded || l.clubLoaded else l.loaded;
    ix.NoteEntries(l);
    ix.NoteClub(l, EntryFacts(d, l.entries));
  }
}
