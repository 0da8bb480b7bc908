/**
 * The hotkey table (HotKeyManager.cs): the list of services, the default
 * bindings, populating the table from stored or default models, reset,
 * the list of hotkeys that could not be registered, and dispatching a
 * pressed hotkey by its id.
 *
 * Registering a hotkey with the operating system is not modelled: when a
 * Hotkey is created from a model, its id and whether the registration
 * succeeded are inputs. Reading and writing the JSON file is reduced to
 * what the read gives: an exception, null, or the stored models.
 */
module HotKeys {
  import opened Wrappers
  import K = WinFormsKeys

  /**
   * The services a hotkey can trigger, in the order of the ServiceName
   * enumeration; ServiceCount ends it.
   */
  datatype ServiceName =
    | NoService
    | Recording
    | Pause
    | ScreenShot
    | ActiveScreenShot
    | DesktopScreenShot
    | ToggleMouseClicks
    | ToggleKeystrokes
    | ServiceCount

  function Ordinal(s: ServiceName): nat {
    match s
    case NoService => 0
    case Recording => 1
    case Pause => 2
    case ScreenShot => 3
    case ActiveScreenShot => 4
    case DesktopScreenShot => 5
    case ToggleMouseClicks => 6
    case ToggleKeystrokes => 7
    case ServiceCount => 8
  }

  /** The enumeration member with the given value. */
  function FromOrdinal(i: nat): (s: ServiceName)
    requires i <= Ordinal(ServiceCount)
    ensures Ordinal(s) == i
  {
    if i == 0 then NoService
    else if i == 1 then Recording
    else if i == 2 then Pause
    else if i == 3 then ScreenShot
    else if i == 4 then ActiveScreenShot
    else if i == 5 then DesktopScreenShot
    else if i == 6 then ToggleMouseClicks
    else if i == 7 then ToggleKeystrokes
    else ServiceCount
  }

  /**
   * The static constructor: one Service per enumeration value, from None up
   * to but not including ServiceCount, in order.
   */
  method AllServices() returns (services: seq<ServiceName>)
    ensures |services| == Ordinal(ServiceCount)
    ensures forall i :: 0 <= i < |services| ==> Ordinal(services[i]) == i
    ensures forall s :: s in services <==> s != ServiceCount
  {
    services := [];
    var i := Ordinal(NoService);
    while i < Ordinal(ServiceCount)
      invariant 0 <= i <= Ordinal(ServiceCount) && |services| == i
      invariant forall j :: 0 <= j < i ==> Ordinal(services[j]) == j
    {
      services := services + [FromOrdinal(i)];
      i := i + 1;
    }
    forall s | s != ServiceCount
      ensures s in services
    {
      assert services[Ordinal(s)] == s by { OrdinalInjective(services[Ordinal(s)], s); }
    }
  }

  lemma OrdinalInjective(a: ServiceName, b: ServiceName)
    requires Ordinal(a) == Ordinal(b)
    ensures a == b
  {
  }

  /** The flags of System.Windows.Input.ModifierKeys (Alt 1, Control 2, Shift 4, Windows 8), any combination. */
  datatype Modifiers = Modifiers(alt: bool, control: bool, shift: bool, windows: bool)

  const NoModifiers := Modifiers(false, false, false, false)
  const Alt := Modifiers(true, false, false, false)
  const Shift := Modifiers(false, false, true, false)

  /** A stored hotkey: service, key, modifiers and whether it is active. */
  datatype HotkeyModel = HotkeyModel(service: ServiceName, key: K.Keys, modifiers: Modifiers, isActive: bool)

  /** A live hotkey: its model, the id it was registered under and whether registering succeeded. */
  datatype Hotkey = Hotkey(model: HotkeyModel, id: int, isRegistered: bool)

  /** What registering a model with the operating system gives. */
  datatype Registration = Registration(id: int, registered: bool)

  /** The default bindings. */
  function Defaults(): (d: seq<HotkeyModel>)
    ensures |d| == 7
    ensures forall i :: 0 <= i < 5 ==> d[i].isActive
    ensures !d[5].isActive && !d[6].isActive
    ensures forall i, j :: 0 <= i < j < |d| ==> d[i].service != d[j].service
  {
    [ HotkeyModel(Recording, K.F9, Alt, true),
      HotkeyModel(Pause, K.F9, Shift, true),
      HotkeyModel(ScreenShot, K.PrintScreen, NoModifiers, true),
      HotkeyModel(ActiveScreenShot, K.PrintScreen, Alt, true),
      HotkeyModel(DesktopScreenShot, K.PrintScreen, Shift, true),
      HotkeyModel(ToggleMouseClicks, K.F10, Alt, false),
      HotkeyModel(ToggleKeystrokes, K.F11, Alt, false) ]
  }

  /** No two default bindings share a key and modifiers. */
  lemma DefaultBindingsDistinct()
    ensures forall i, j :: 0 <= i < j < |Defaults()| ==>
      (Defaults()[i].key, Defaults()[i].modifiers) != (Defaults()[j].key, Defaults()[j].modifiers)
  {
  }

  /** The hotkeys created from the models, each with its registration. */
  function Created(models: seq<HotkeyModel>, regs: seq<Registration>): (hs: seq<Hotkey>)
    requires |regs| == |models|
    ensures |hs| == |models|
    ensures forall i :: 0 <= i < |hs| ==> hs[i] == Hotkey(models[i], regs[i].id, regs[i].registered)
  {
    seq(|models|, i requires 0 <= i < |models| => Hotkey(models[i], regs[i].id, regs[i].registered))
  }

  /** The hotkeys that are active but could not be registered, in order. */
  function Unregistered(hs: seq<Hotkey>): (r: seq<Hotkey>)
    ensures |r| <= |hs|
  {
    if hs == [] then []
    else
      var rest := Unregistered(hs[1..]);
      if hs[0].model.isActive && !hs[0].isRegistered then [hs[0]] + rest else rest
  }

  /** A hotkey is listed exactly when it is one of the active hotkeys that did not register. */
  lemma {:induction false} UnregisteredMembers(hs: seq<Hotkey>, h: Hotkey)
    ensures h in Unregistered(hs) <==> h in hs && h.model.isActive && !h.isRegistered
  {
    if hs != [] {
      UnregisteredMembers(hs[1..], h);
      assert h in hs <==> h == hs[0] || h in hs[1..];
    }
  }

  lemma {:induction false} UnregisteredAppend(a: seq<Hotkey>, b: seq<Hotkey>)
    ensures Unregistered(a + b) == Unregistered(a) + Unregistered(b)
  {
    if a == [] {
      assert a + b == b;
    } else {
      assert (a + b)[1..] == a[1..] + b;
      UnregisteredAppend(a[1..], b);
    }
  }

  lemma UnregisteredOne(h: Hotkey)
    ensures Unregistered([h]) == if h.model.isActive && !h.isRegistered then [h] else []
  {
    assert [h][1..] == [];
  }

  /** The hotkeys that carry the id. */
  function WithId(hs: seq<Hotkey>, id: int): (r: seq<Hotkey>)
    ensures forall h :: h in r <==> h in hs && h.id == id
    ensures |r| <= |hs|
  {
    if hs == [] then []
    else
      var rest := WithId(hs[1..], id);
      assert forall h :: h in hs <==> h == hs[0] || h in hs[1..];
      if hs[0].id == id then [hs[0]] + rest else rest
  }

  /**
   * The exceptions of the hotkey table: SingleOrDefault throws
   * InvalidOperationException when more than one element matches; Populate
   * throws NullReferenceException when it is handed no sequence at all.
   */
  datatype Fault = InvalidOperationException | NullReferenceException

  /**
   * ProcessHotkey: no hotkey with the id raises nothing, exactly one raises
   * the event with its service, and more than one makes SingleOrDefault
   * throw.
   */
  function Dispatch(hs: seq<Hotkey>, id: int): (r: Result<Option<ServiceName>, Fault>)
    ensures r == Ok(None) <==> forall h :: h in hs ==> h.id != id
    ensures r.Ok? && r.value.Some? ==> exists h :: h in hs && h.id == id && h.model.service == r.value.value
    ensures r.Err? <==> |WithId(hs, id)| >= 2
  {
    var found := WithId(hs, id);
    if |found| == 0 then
      Ok(None)
    else if |found| == 1 then
      assert found[0] in found;
      Ok(Some(found[0].model.service))
    else
      assert found[0] in found;
      Err(InvalidOperationException)
  }

  /** With distinct ids a pressed hotkey never throws. */
  lemma {:induction false} DistinctIdsNeverThrow(hs: seq<Hotkey>, id: int)
    requires forall i, j :: 0 <= i < j < |hs| ==> hs[i].id != hs[j].id
    ensures |WithId(hs, id)| <= 1
  {
    if hs != [] {
      DistinctIdsNeverThrow(hs[1..], id);
      if hs[0].id == id {
        assert forall h :: h in hs[1..] ==> h.id != id;
        NoneWithId(hs[1..], id);
      }
    }
  }

  lemma NoneWithId(hs: seq<Hotkey>, id: int)
    requires forall h :: h in hs ==> h.id != id
    ensures WithId(hs, id) == []
  {
    if WithId(hs, id) != [] {
      assert WithId(hs, id)[0] in WithId(hs, id);
    }
  }

  /** A line of the error message: the fixed explanation, or a hotkey's service and the hotkey. */
  datatype MessageLine = Header | HotkeyLine(service: ServiceName, hotkey: Hotkey)

  /**
   * What ShowNotRegisteredOnStartup shows: nothing when every hotkey was
   * registered, otherwise the explanation followed by one line per hotkey,
   * in order.
   */
  function NotRegisteredMessage(notRegistered: seq<Hotkey>): (r: Option<seq<MessageLine>>)
    ensures r.None? <==> notRegistered == []
    ensures r.Some? ==> |r.value| == |notRegistered| + 1 && r.value[0] == Header
    ensures r.Some? ==> forall i :: 0 <= i < |notRegistered| ==>
      r.value[i + 1] == HotkeyLine(notRegistered[i].model.service, notRegistered[i])
  {
    if |notRegistered| > 0 then
      Some([Header] + seq(|notRegistered|, i requires 0 <= i < |notRegistered| =>
        HotkeyLine(notRegistered[i].model.service, notRegistered[i])))
    else None
  }

  /** The message names every hotkey that failed, and names nothing else. */
  lemma MessageNamesFailures(notRegistered: seq<Hotkey>, line: MessageLine)
    requires notRegistered != []
    ensures line.HotkeyLine? ==>
      (line in NotRegisteredMessage(notRegistered).value <==> line.hotkey in notRegistered && line.service == line.hotkey.model.service)
  {
    var m := NotRegisteredMessage(notRegistered).value;
    if line.HotkeyLine? && line in m {
      var k :| 0 <= k < |m| && m[k] == line;
      assert k > 0;
      assert notRegistered[k - 1] == line.hotkey;
    }
    if line.HotkeyLine? && line.hotkey in notRegistered && line.service == line.hotkey.model.service {
      var k :| 0 <= k < |notRegistered| && notRegistered[k] == line.hotkey;
      assert m[k + 1] == line;
    }
  }

  /**
   * What reading the stored hotkeys gives: the read or the deserialisation
   * throws; the JSON deserialises to null (an empty file, or "null"); or
   * the stored models.
   */
  datatype StoredHotkeys = Unreadable | NullModels | Stored(models: seq<HotkeyModel>)

  class HotKeyManager {
    var hotkeys: seq<Hotkey>
    var notRegisteredOnStartup: seq<Hotkey>

    constructor ()
      ensures hotkeys == [] && notRegisteredOnStartup == []
    {
      hotkeys, notRegisteredOnStartup := [], [];
    }

    /**
     * Populate: a hotkey is created for every model, in order, and appended;
     * the active ones whose registration failed are also remembered.
     */
    method Populate(models: seq<HotkeyModel>, regs: seq<Registration>)
      requires |regs| == |models|
      modifies this
      ensures hotkeys == old(hotkeys) + Created(models, regs)
      ensures notRegisteredOnStartup == old(notRegisteredOnStartup) + Unregistered(Created(models, regs))
    {
      ghost var created := Created(models, regs);
      for i := 0 to |models|
        invariant hotkeys == old(hotkeys) + created[..i]
        invariant notRegisteredOnStartup == old(notRegisteredOnStartup) + Unregistered(created[..i])
      {
        var hotkey := Hotkey(models[i], regs[i].id, regs[i].registered);
        assert created[..i + 1] == created[..i] + [hotkey];
        UnregisteredAppend(created[..i], [hotkey]);
        UnregisteredOne(hotkey);
        if hotkey.model.isActive && !hotkey.isRegistered {
          notRegisteredOnStartup := notRegisteredOnStartup + [hotkey];
        }
        hotkeys := hotkeys + [hotkey];
      }
      assert created[..|models|] == created;
    }

    /**
     * RegisterAll: the stored models, or the defaults when they cannot be
     * read. A file that deserialises to null reaches Populate, outside the
     * try, which throws before it changes anything.
     */
    method RegisterAll(stored: StoredHotkeys, regs: seq<Registration>) returns (r: Result<(), Fault>)
      requires stored.Unreadable? ==> |regs| == |Defaults()|
      requires stored.Stored? ==> |regs| == |stored.models|
      modifies this
      ensures r.Err? <==> stored.NullModels?
      ensures r.Err? ==> r.error == NullReferenceException
      ensures stored.NullModels? ==> hotkeys == old(hotkeys) && notRegisteredOnStartup == old(notRegisteredOnStartup)
      ensures !stored.NullModels? ==> var models := if stored.Stored? then stored.models else Defaults();
        hotkeys == old(hotkeys) + Created(models, regs) &&
        notRegisteredOnStartup == old(notRegisteredOnStartup) + Unregistered(Created(models, regs))
    {
      match stored {
        case NullModels =>
          return Err(NullReferenceException);
        case Unreadable =>
          Populate(Defaults(), regs);
        case Stored(models) =>
          Populate(models, regs);
      }
      return Ok(());
    }

    /**
     * Dispose: every hotkey is unregistered and the models are saved (the
     * result); errors while saving are ignored.
     */
    method Dispose() returns (saved: seq<HotkeyModel>)
      modifies this
      ensures |hotkeys| == |old(hotkeys)| && |saved| == |hotkeys|
      ensures forall i :: 0 <= i < |hotkeys| ==> hotkeys[i] == old(hotkeys[i]).(isRegistered := false)
      ensures forall i :: 0 <= i < |saved| ==> saved[i] == old(hotkeys[i]).model
      ensures notRegisteredOnStartup == old(notRegisteredOnStartup)
    {
      saved := [];
      var i := 0;
      while i < |hotkeys|
        invariant 0 <= i <= |hotkeys| && |hotkeys| == |old(hotkeys)| && |saved| == i
        invariant forall j :: 0 <= j < i ==> hotkeys[j] == old(hotkeys[j]).(isRegistered := false)
        invariant forall j :: i <= j < |hotkeys| ==> hotkeys[j] == old(hotkeys[j])
        invariant forall j :: 0 <= j < i ==> saved[j] == old(hotkeys[j]).model
        invariant notRegisteredOnStartup == old(notRegisteredOnStartup)
      {
        saved := saved + [hotkeys[i].model];
        hotkeys := hotkeys[i := hotkeys[i].(isRegistered := false)];
        i := i + 1;
      }
    }

    /**
     * Reset: dispose, clear the table and populate it with the defaults. The
     * list of hotkeys that failed to register is not cleared.
     */
    method Reset(regs: seq<Registration>) returns (saved: seq<HotkeyModel>)
      requires |regs| == |Defaults()|
      modifies this
      ensures hotkeys == Created(Defaults(), regs)
      ensures notRegisteredOnStartup == old(notRegisteredOnStartup) + Unregistered(Created(Defaults(), regs))
      ensures |saved| == |old(hotkeys)| && forall i :: 0 <= i < |saved| ==> saved[i] == old(hotkeys[i]).model
    {
      saved := Dispose();
      hotkeys := [];
      Populate(Defaults(), regs);
    }

    /** ProcessHotkey: the service whose hotkey was pressed, if exactly one has the id. */
    method ProcessHotkey(id: int) returns (raised: Result<Option<ServiceName>, Fault>)
      ensures raised == Dispatch(hotkeys, id)
    {
      raised := Dispatch(hotkeys, id);
    }

    /** ShowNotRegisteredOnStartup: the message is built line by line, one line per failed hotkey. */
    method ShowNotRegisteredOnStartup() returns (shown: Option<seq<MessageLine>>)
      ensures shown == NotRegisteredMessage(notRegisteredOnStartup)
    {
      if |notRegisteredOnStartup| > 0 {
        var message: seq<MessageLine> := [Header];
        for i := 0 to |notRegisteredOnStartup|
          invariant |message| == i + 1 && message[0] == Header
          invariant forall j :: 0 <= j < i ==>
            message[j + 1] == HotkeyLine(notRegisteredOnStartup[j].model.service, notRegisteredOnStartup[j])
        {
          var hotkey := notRegisteredOnStartup[i];
          message := message + [HotkeyLine(hotkey.model.service, hotkey)];
        }
        ghost var expected := NotRegisteredMessage(notRegisteredOnStartup).value;
        assert forall k :: 0 <= k < |message| ==> message[k] == expected[k] by {
          forall k | 0 <= k < |message| ensures message[k] == expected[k] {
            if k > 0 {
              assert message[(k - 1) + 1] == expected[(k - 1) + 1];
            }
          }
        }
        assert message == expected;
        shown := Some(message);
      } else {
        shown := None;
      }
    }
  }

  /** After a reset the table holds exactly the seven defaults, in order. */
  lemma ResetGivesDefaults(regs: seq<Registration>)
    requires |regs| == |Defaults()|
    ensures |Created(Defaults(), regs)| == 7
    ensures forall i :: 0 <= i < 7 ==> Created(Defaults(), regs)[i].model == Defaults()[i]
  {
  }
}
