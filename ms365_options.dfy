// Microsoft 365 calendar: the options flow that chooses which calendars are
// tracked, walks through the chosen calendars' settings and finally deletes
// the calendars no longer chosen (config_flow_integration.py).

module Ms365Options {
  import opened Common

  /** One calendar entity of the calendars file: its device id, track flag and remaining settings. */
  datatype Entity = Entity(deviceId: string, track: bool, settings: map<string, string>)

  /** The calendars file: each calendar's list of entities. */
  type Calendars = seq<seq<Entity>>

  /** The submitted user step: track new calendars, and the chosen device ids. */
  datatype UserInput = UserInput(trackNew: bool, calendarList: seq<string>)

  /** What a step shows: the user form, one calendar's form, the created entry, or an error raised on the way. */
  datatype Step = Failed | UserForm | CalendarForm(item: Entity, lastStep: bool)
                | Created(data: Option<UserInput>, deleted: seq<string>)

  /** Python's `s[i]`, where a negative index counts from the end; None where it raises. */
  function PyIndex<T>(s: seq<T>, i: int): (r: Option<T>)
    ensures 0 <= i < |s| ==> r == Some(s[i])
    ensures -|s| <= i < 0 ==> r == Some(s[|s| + i])
    ensures r.None? <==> i >= |s| || i < -|s|
  {
    if 0 <= i < |s| then Some(s[i]) else if -|s| <= i < 0 then Some(s[|s| + i]) else None
  }

  /** All entities in file order. */
  function Flatten(cals: Calendars): seq<Entity>
  {
    if |cals| == 0 then [] else Flatten(cals[..|cals| - 1]) + cals[|cals| - 1]
  }

  function Ids(es: seq<Entity>): (r: seq<string>)
    ensures |r| == |es| && forall i :: 0 <= i < |es| ==> r[i] == es[i].deviceId
  {
    if |es| == 0 then [] else Ids(es[..|es| - 1]) + [es[|es| - 1].deviceId]
  }

  /** The device ids of the tracked entities, in order. */
  function TrackedIds(es: seq<Entity>): (r: seq<string>)
    ensures |r| <= |es|
    ensures forall id :: id in r <==> exists i :: 0 <= i < |es| && es[i].track && es[i].deviceId == id
  {
    if |es| == 0 then []
    else
      var prefix := es[..|es| - 1];
      var last := es[|es| - 1];
      assert forall i :: 0 <= i < |prefix| ==> prefix[i] == es[i];
      if last.track then TrackedIds(prefix) + [last.deviceId] else TrackedIds(prefix)
  }

  lemma IdsAppend(a: seq<Entity>, b: seq<Entity>)
    ensures Ids(a + b) == Ids(a) + Ids(b)
  {
  }

  lemma {:induction false} TrackedIdsAppend(a: seq<Entity>, b: seq<Entity>)
    ensures TrackedIds(a + b) == TrackedIds(a) + TrackedIds(b)
    decreases |b|
  {
    if |b| > 0 {
      var b' := b[..|b| - 1];
      assert (a + b)[..|a + b| - 1] == a + b';
      TrackedIdsAppend(a, b');
    } else {
      assert a + b == a;
    }
  }

  /** Listing one more calendar appends its entities' ids and tracked ids. */
  lemma FlattenStep(cals: Calendars, i: nat)
    requires i < |cals|
    ensures Ids(Flatten(cals[..i + 1])) == Ids(Flatten(cals[..i])) + Ids(cals[i])
    ensures TrackedIds(Flatten(cals[..i + 1])) == TrackedIds(Flatten(cals[..i])) + TrackedIds(cals[i])
  {
    assert cals[..i + 1][..i] == cals[..i];
    assert Flatten(cals[..i + 1]) == Flatten(cals[..i]) + cals[i];
    IdsAppend(Flatten(cals[..i]), cals[i]);
    TrackedIdsAppend(Flatten(cals[..i]), cals[i]);
  }

  /** Every tracked id is one of the listed ids, so the preselection is a valid choice of the multi-select. */
  lemma {:induction false} TrackedAreListed(es: seq<Entity>)
    ensures forall id :: id in TrackedIds(es) ==> id in Ids(es)
  {
    forall id | id in TrackedIds(es)
      ensures id in Ids(es)
    {
      var i :| 0 <= i < |es| && es[i].track && es[i].deviceId == id;
      assert Ids(es)[i] == id;
    }
  }

  // ---- finding an entity ---------------------------------------------------------------

  /** Position `p` comes before position `q` in file order. */
  predicate Before(p: (nat, nat), q: (nat, nat))
  {
    p.0 < q.0 || (p.0 == q.0 && p.1 < q.1)
  }

  predicate HasIdAt(cals: Calendars, p: (nat, nat), id: string)
  {
    p.0 < |cals| && p.1 < |cals[p.0]| && cals[p.0][p.1].deviceId == id
  }

  /** The first entity in a calendar with the id. */
  function LocateIn(es: seq<Entity>, id: string): (r: Option<nat>)
    ensures r.None? <==> forall m :: 0 <= m < |es| ==> es[m].deviceId != id
    ensures r.Some? ==> r.value < |es| && es[r.value].deviceId == id &&
                        forall m :: 0 <= m < r.value ==> es[m].deviceId != id
  {
    if |es| == 0 then None
    else if es[0].deviceId == id then Some(0)
    else
      var rest := LocateIn(es[1..], id);
      assert forall m :: 1 <= m < |es| ==> es[m] == es[1..][m - 1];
      if rest.None? then None else Some(rest.value + 1)
  }

  /** No entity before position `p` has the id. */
  predicate NoneBefore(cals: Calendars, p: (nat, nat), id: string)
  {
    forall k: nat, m: nat :: Before((k, m), p) && k < |cals| && m < |cals[k]| ==> cals[k][m].deviceId != id
  }

  /** The first entity of the file with the id, as the nested loops meet it. */
  function Locate(cals: Calendars, id: string): (r: Option<(nat, nat)>)
    ensures r.None? <==> forall k, m :: 0 <= k < |cals| && 0 <= m < |cals[k]| ==> cals[k][m].deviceId != id
    ensures r.Some? ==> HasIdAt(cals, r.value, id) && NoneBefore(cals, r.value, id)
  {
    if |cals| == 0 then None
    else
      var here := LocateIn(cals[0], id);
      if here.Some? then Some((0, here.value))
      else
        var rest := Locate(cals[1..], id);
        assert forall k :: 1 <= k < |cals| ==> cals[k] == cals[1..][k - 1];
        if rest.None? then None
        else
          NoneBeforeShifted(cals, id, rest.value);
          Some((rest.value.0 + 1, rest.value.1))
  }

  lemma NoneBeforeShifted(cals: Calendars, id: string, q: (nat, nat))
    requires |cals| > 0 && forall m :: 0 <= m < |cals[0]| ==> cals[0][m].deviceId != id
    requires NoneBefore(cals[1..], q, id)
    ensures NoneBefore(cals, (q.0 + 1, q.1), id)
  {
    forall k: nat, m: nat | Before((k, m), (q.0 + 1, q.1)) && k < |cals| && m < |cals[k]|
      ensures cals[k][m].deviceId != id
    {
      if k > 0 {
        assert cals[k] == cals[1..][k - 1];
        assert Before((k - 1, m), q);
      }
    }
  }

  /** The position of the first match is determined by the two facts that characterise it. */
  lemma FirstMatchIsLocated(cals: Calendars, id: string, p: (nat, nat))
    requires HasIdAt(cals, p, id) && NoneBefore(cals, p, id)
    ensures Locate(cals, id) == Some(p)
  {
    var r := Locate(cals, id);
    assert r.Some?;
    assert !Before(r.value, p);
    assert !Before(p, r.value);
  }

  /** The nested search loop of `_get_calendar_item` and of the calendar step. */
  method LocateEntity(cals: Calendars, id: string) returns (pos: Option<(nat, nat)>)
    ensures pos == Locate(cals, id)
  {
    var k := 0;
    while k < |cals|
      invariant 0 <= k <= |cals|
      invariant forall k', m :: 0 <= k' < k && 0 <= m < |cals[k']| ==> cals[k'][m].deviceId != id
    {
      var m := 0;
      while m < |cals[k]|
        invariant 0 <= m <= |cals[k]|
        invariant forall m' :: 0 <= m' < m ==> cals[k][m'].deviceId != id
      {
        if cals[k][m].deviceId == id {
          FirstMatchIsLocated(cals, id, (k, m));
          return Some((k, m));
        }
        m := m + 1;
      }
      k := k + 1;
    }
    return None;
  }

  // ---- deletions ----------------------------------------------------------------------

  /** The originally chosen calendars that are no longer chosen, in their original order. */
  function Deleted(original: seq<string>, chosen: seq<string>): (r: seq<string>)
    ensures forall id :: id in r <==> id in original && id !in chosen
    ensures |r| <= |original|
  {
    if |original| == 0 then []
    else
      var prefix := original[..|original| - 1];
      var last := original[|original| - 1];
      assert original == prefix + [last];
      if last !in chosen then Deleted(prefix, chosen) + [last] else Deleted(prefix, chosen)
  }

  /** Keeping the same choice deletes nothing; dropping every calendar deletes every original one. */
  lemma {:induction false} DeletedExtremes(original: seq<string>)
    ensures Deleted(original, original) == []
    ensures Deleted(original, []) == original
  {
    DeletedAllChosen(original, original);
    DeletedNothingChosen(original);
  }

  lemma {:induction false} DeletedAllChosen(original: seq<string>, chosen: seq<string>)
    requires forall id :: id in original ==> id in chosen
    ensures Deleted(original, chosen) == []
  {
    if |original| > 0 {
      var prefix := original[..|original| - 1];
      assert forall id :: id in prefix ==> id in original;
      DeletedAllChosen(prefix, chosen);
      assert original[|original| - 1] in original;
    }
  }

  lemma {:induction false} DeletedNothingChosen(original: seq<string>)
    ensures Deleted(original, []) == original
  {
    if |original| > 0 {
      DeletedNothingChosen(original[..|original| - 1]);
      assert original == original[..|original| - 1] + [original[|original| - 1]];
    }
  }

  /** The tidy-up loop over the original choice. */
  method DeletedCalendars(original: seq<string>, chosen: seq<string>) returns (r: seq<string>)
    ensures r == Deleted(original, chosen)
  {
    r := [];
    var i := 0;
    while i < |original|
      invariant 0 <= i <= |original|
      invariant r == Deleted(original[..i], chosen)
    {
      assert original[..i + 1][..i] == original[..i];
      if original[i] !in chosen {
        r := r + [original[i]];
      }
      i := i + 1;
    }
    assert original[..|original|] == original;
  }

  // ---- the calendar walk --------------------------------------------------------------

  /**
   * The calendar step without input, from counter `n`: at the end of the choice
   * the entry is created with the deletions; otherwise the counter advances and
   * the next chosen calendar's form is shown.
   */
  function Advance(cals: Calendars, chosen: seq<string>, original: seq<string>, data: Option<UserInput>, n: nat)
    : (r: (nat, Step))
    ensures n == |chosen| ==> r == (n, Created(data, Deleted(original, chosen)))
    ensures n != |chosen| ==> r.0 == n + 1
    ensures n < |chosen| && InFile(cals, chosen[n]) ==>
              r.1.CalendarForm? && r.1.item.deviceId == chosen[n] && (r.1.lastStep <==> n + 1 == |chosen|)
    ensures n > |chosen| ==> r.1 == Failed
  {
    if n == |chosen| then (n, Created(data, Deleted(original, chosen)))
    else
      var target := PyIndex(chosen, n);
      if target.None? then (n + 1, Failed)
      else
        var p := Locate(cals, target.value);
        FlattenHasId(cals, target.value);
        if p.None? then (n + 1, Failed)
        else (n + 1, CalendarForm(cals[p.value.0][p.value.1], n + 1 == |chosen|))
  }

  /** Some entity of the calendars file has device id `id`. */
  predicate InFile(cals: Calendars, id: string)
  {
    exists e :: e in Flatten(cals) && e.deviceId == id
  }

  /** An entity of the flattened file sits at some position of the file. */
  lemma {:induction false} FlattenHasId(cals: Calendars, id: string)
    ensures InFile(cals, id) ==> Locate(cals, id).Some?
  {
    if |cals| > 0 && exists e :: e in Flatten(cals) && e.deviceId == id {
      var e :| e in Flatten(cals) && e.deviceId == id;
      var prefix := cals[..|cals| - 1];
      if e in Flatten(prefix) {
        FlattenHasId(prefix, id);
        var q := Locate(prefix, id).value;
        assert cals[q.0] == prefix[q.0];
        assert HasIdAt(cals, q, id);
      } else {
        var m :| 0 <= m < |cals[|cals| - 1]| && cals[|cals| - 1][m] == e;
        assert HasIdAt(cals, (|cals| - 1, m), id);
      }
    }
  }

  /** The device ids of the forms shown while walking from counter `n` to the end of the choice. */
  function FormsFrom(cals: Calendars, chosen: seq<string>, original: seq<string>, data: Option<UserInput>, n: nat)
    : seq<string>
    requires n <= |chosen|
    decreases |chosen| - n
  {
    var (next, step) := Advance(cals, chosen, original, data, n);
    if n == |chosen| || !step.CalendarForm? then []
    else [step.item.deviceId] + FormsFrom(cals, chosen, original, data, next)
  }

  /** At the end of the choice no further form is shown. */
  lemma FormsFromEnd(cals: Calendars, chosen: seq<string>, original: seq<string>, data: Option<UserInput>)
    ensures FormsFrom(cals, chosen, original, data, |chosen|) == []
  {
  }

  /** A chosen calendar that is in the file has its form shown, and the walk goes on from the next counter. */
  lemma FormsFromStep(cals: Calendars, chosen: seq<string>, original: seq<string>, data: Option<UserInput>, n: nat)
    requires n < |chosen|
    requires InFile(cals, chosen[n])
    ensures FormsFrom(cals, chosen, original, data, n) == [chosen[n]] + FormsFrom(cals, chosen, original, data, n + 1)
  {
    var (next, step) := Advance(cals, chosen, original, data, n);
    assert next == n + 1 && step.CalendarForm? && step.item.deviceId == chosen[n];
  }

  /** When every chosen calendar is in the file, the walk shows their forms in the chosen order, then creates the entry. */
  lemma {:induction false} WalkVisitsChoiceInOrder(cals: Calendars, chosen: seq<string>, original: seq<string>,
                                                  data: Option<UserInput>, n: nat)
    requires n <= |chosen|
    requires forall i :: n <= i < |chosen| ==> InFile(cals, chosen[i])
    ensures FormsFrom(cals, chosen, original, data, n) == chosen[n..]
    decreases |chosen| - n
  {
    if n == |chosen| {
      FormsFromEnd(cals, chosen, original, data);
    } else {
      FormsFromStep(cals, chosen, original, data, n);
      WalkVisitsChoiceInOrder(cals, chosen, original, data, n + 1);
      SuffixCons(chosen, n);
    }
  }

  // ---- the flow ------------------------------------------------------------------------

  /** The inner loop of `async_step_init`: one calendar's entities are listed, and the tracked ones chosen. */
  method ListEntities(list: seq<string>, chosen: seq<string>, es: seq<Entity>) returns (list': seq<string>, chosen': seq<string>)
    ensures list' == list + Ids(es)
    ensures chosen' == chosen + TrackedIds(es)
  {
    list', chosen' := list, chosen;
    var j := 0;
    while j < |es|
      invariant 0 <= j <= |es|
      invariant list' == list + Ids(es[..j])
      invariant chosen' == chosen + TrackedIds(es[..j])
    {
      assert es[..j + 1][..j] == es[..j];
      list' := list' + [es[j].deviceId];
      if es[j].track {
        chosen' := chosen' + [es[j].deviceId];
      }
      j := j + 1;
    }
    assert es[..|es|] == es;
  }

  /** Listing one more calendar extends the listing of the calendars before it. */
  lemma ListedStep(cals: Calendars, i: nat, list: seq<string>, chosen: seq<string>)
    requires i < |cals|
    ensures list + Ids(Flatten(cals[..i])) + Ids(cals[i]) == list + Ids(Flatten(cals[..i + 1]))
    ensures chosen + TrackedIds(Flatten(cals[..i])) + TrackedIds(cals[i]) == chosen + TrackedIds(Flatten(cals[..i + 1]))
  {
    FlattenStep(cals, i);
    AppendAssociates(list, Ids(Flatten(cals[..i])), Ids(cals[i]));
    AppendAssociates(chosen, TrackedIds(Flatten(cals[..i])), TrackedIds(cals[i]));
  }

  class OptionsFlow {
    var trackNew: bool
    var calendars: Calendars
    /** Every entity's device id, the choices of the multi-select. */
    var calendarList: seq<string>
    var selected: seq<string>
    var selectedOriginal: seq<string>
    var calendarNo: nat
    var userInput: Option<UserInput>
    /** The calendars last written back to the calendars file, if any. */
    var written: Option<Calendars>

    /** `trackNewOption` is the stored option, absent when never set. */
    constructor(trackNewOption: Option<bool>)
      ensures trackNew == trackNewOption.GetOr(true)
      ensures calendars == [] && calendarList == [] && selected == [] && selectedOriginal == []
      ensures calendarNo == 0 && userInput.None? && written.None?
    {
      trackNew := trackNewOption.GetOr(true);
      calendars := [];
      calendarList := [];
      selected := [];
      selectedOriginal := [];
      calendarNo := 0;
      userInput := None;
      written := None;
    }

    /** `async_step_init`: `read` is the calendars file; the user form follows. */
    method Init(read: Calendars) returns (s: Step)
      modifies this
      ensures calendars == read
      ensures calendarList == old(calendarList) + Ids(Flatten(read))
      ensures selected == old(selected) + TrackedIds(Flatten(read))
      ensures selectedOriginal == selected
      ensures s == UserForm
      ensures trackNew == old(trackNew) && calendarNo == old(calendarNo) && userInput == old(userInput)
      ensures written == old(written)
    {
      calendars := read;
      var list, chosen := calendarList, selected;
      var i := 0;
      assert Flatten(read[..0]) == [];
      while i < |read|
        invariant 0 <= i <= |read|
        invariant list == old(calendarList) + Ids(Flatten(read[..i]))
        invariant chosen == old(selected) + TrackedIds(Flatten(read[..i]))
        modifies {}
      {
        list, chosen := ListEntities(list, chosen, read[i]);
        ListedStep(read, i, old(calendarList), old(selected));
        i := i + 1;
      }
      assert read[..|read|] == read;
      calendarList, selected := list, chosen;
      selectedOriginal := selected;
      s := UserForm;
    }

    /** Setting every entity's track flag to whether its device id was chosen. */
    method Retrack(chosen: seq<string>)
      modifies this
      ensures |calendars| == |old(calendars)|
      ensures forall k :: 0 <= k < |calendars| ==> |calendars[k]| == |old(calendars)[k]|
      ensures forall k, m :: 0 <= k < |calendars| && 0 <= m < |calendars[k]| ==>
                calendars[k][m] == old(calendars)[k][m].(track := old(calendars)[k][m].deviceId in chosen)
      ensures trackNew == old(trackNew) && calendarList == old(calendarList) && selected == old(selected)
      ensures selectedOriginal == old(selectedOriginal) && calendarNo == old(calendarNo)
      ensures userInput == old(userInput) && written == old(written)
    {
      var k := 0;
      while k < |calendars|
        invariant 0 <= k <= |calendars| && |calendars| == |old(calendars)|
        invariant forall k' :: 0 <= k' < |calendars| ==> |calendars[k']| == |old(calendars)[k']|
        invariant forall k', m :: 0 <= k' < |calendars| && 0 <= m < |calendars[k']| ==>
                    calendars[k'][m] == if k' < k then old(calendars)[k'][m].(track := old(calendars)[k'][m].deviceId in chosen)
                                        else old(calendars)[k'][m]
        invariant trackNew == old(trackNew) && calendarList == old(calendarList) && selected == old(selected)
        invariant selectedOriginal == old(selectedOriginal) && calendarNo == old(calendarNo)
        invariant userInput == old(userInput) && written == old(written)
      {
        var m := 0;
        while m < |calendars[k]|
          invariant k < |calendars| && 0 <= m <= |calendars[k]| && |calendars| == |old(calendars)|
          invariant forall k' :: 0 <= k' < |calendars| ==> |calendars[k']| == |old(calendars)[k']|
          invariant forall k', m' :: 0 <= k' < |calendars| && 0 <= m' < |calendars[k']| ==>
                      calendars[k'][m'] == if k' < k || (k' == k && m' < m)
                                           then old(calendars)[k'][m'].(track := old(calendars)[k'][m'].deviceId in chosen)
                                           else old(calendars)[k'][m']
          invariant trackNew == old(trackNew) && calendarList == old(calendarList) && selected == old(selected)
          invariant selectedOriginal == old(selectedOriginal) && calendarNo == old(calendarNo)
          invariant userInput == old(userInput) && written == old(written)
        {
          var e := calendars[k][m];
          calendars := calendars[k := calendars[k][m := e.(track := e.deviceId in chosen)]];
          m := m + 1;
        }
        k := k + 1;
      }
    }

    /** `async_step_user`: without input the form is shown; with it the choice is stored, applied to the track flags, and the walk begins. */
    method User(input: Option<UserInput>) returns (s: Step)
      modifies this
      ensures input.None? ==> s == UserForm && calendars == old(calendars) && selected == old(selected) &&
                              calendarNo == old(calendarNo) && trackNew == old(trackNew) && written == old(written)
      ensures input.Some? ==>
                userInput == input && trackNew == input.value.trackNew && selected == input.value.calendarList &&
                |calendars| == |old(calendars)| &&
                (forall k :: 0 <= k < |calendars| ==> |calendars[k]| == |old(calendars)[k]|) &&
                (forall k, m :: 0 <= k < |calendars| && 0 <= m < |calendars[k]| ==>
                   calendars[k][m] == old(calendars)[k][m].(track := old(calendars)[k][m].deviceId in selected)) &&
                (calendarNo, s) == Advance(calendars, selected, selectedOriginal, userInput, old(calendarNo))
      ensures s.Created? ==> written == Some(calendars)
      ensures !s.Created? ==> written == old(written)
      ensures calendarList == old(calendarList) && selectedOriginal == old(selectedOriginal)
    {
      if input.None? {
        return UserForm;
      }
      userInput := input;
      trackNew := input.value.trackNew;
      selected := input.value.calendarList;
      Retrack(selected);
      s := Walk();
    }

    /**
     * `async_step_calendar_config`: a submitted form updates the first entity
     * with the calendar shown last (`update` is `add_attribute_to_item` applied
     * to the five settings); then the walk goes on.
     */
    method CalendarConfig(input: Option<map<string, string>>, update: (Entity, map<string, string>) -> Entity)
      returns (s: Step)
      modifies this
      ensures var target := PyIndex(old(selected), old(calendarNo) as int - 1);
              var updated := input.Some? && Flatten(old(calendars)) != [] && target.Some? &&
                             Locate(old(calendars), target.value).Some?;
              var failed := input.Some? && Flatten(old(calendars)) != [] && target.None?;
              (failed ==> s == Failed && calendars == old(calendars) && calendarNo == old(calendarNo)) &&
              (updated ==>
                 var p := Locate(old(calendars), target.value).value;
                 calendars == old(calendars)[p.0 := old(calendars)[p.0][p.1 := update(old(calendars)[p.0][p.1], input.value)]]) &&
              (!updated && !failed ==> calendars == old(calendars)) &&
              (!failed ==> (calendarNo, s) == Advance(calendars, selected, selectedOriginal, userInput, old(calendarNo)))
      ensures s.Created? ==> written == Some(calendars)
      ensures !s.Created? ==> written == old(written)
      ensures selected == old(selected) && selectedOriginal == old(selectedOriginal) && userInput == old(userInput)
      ensures calendarList == old(calendarList) && trackNew == old(trackNew)
    {
      if input.Some? && Flatten(calendars) != [] {
        var target := PyIndex(selected, calendarNo as int - 1);
        if target.None? {
          return Failed;
        }
        var p := LocateEntity(calendars, target.value);
        if p.Some? {
          var (k, m) := p.value;
          calendars := calendars[k := calendars[k][m := update(calendars[k][m], input.value)]];
        }
      }
      s := Walk();
    }

    /** The calendar step once any input is applied: tidy up at the end of the choice, else show the next calendar. */
    method Walk() returns (s: Step)
      modifies this
      ensures (calendarNo, s) == Advance(old(calendars), old(selected), old(selectedOriginal), old(userInput), old(calendarNo))
      ensures s.Created? ==> written == Some(old(calendars))
      ensures !s.Created? ==> written == old(written)
      ensures calendars == old(calendars) && selected == old(selected) && selectedOriginal == old(selectedOriginal)
      ensures userInput == old(userInput) && calendarList == old(calendarList) && trackNew == old(trackNew)
    {
      if calendarNo == |selected| {
        written := Some(calendars);
        var deleted := DeletedCalendars(selectedOriginal, selected);
        return Created(userInput, deleted);
      }
      calendarNo := calendarNo + 1;
      var target := PyIndex(selected, calendarNo as int - 1);
      if target.None? {
        return Failed;
      }
      var p := LocateEntity(calendars, target.value);
      if p.None? {
        return Failed;
      }
      s := CalendarForm(calendars[p.value.0][p.value.1], calendarNo == |selected|);
    }
  }
}
