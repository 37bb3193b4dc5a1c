/**
 * The voice-command interpreter of the voice panel: a transcript is lower-cased
 * and trimmed, put in one category by a fixed order of substring tests, and
 * then acted on (navigate, switch a device, run a routine, or just answer).
 * Devices and routines are looked up by their lower-cased names and aliases,
 * and the first one in list order that the command mentions wins.
 */
module VoiceControl {
  import opened Wrappers
  import Lists
  import Text
  import Devices
  import Routines
  import VoiceStore

  /** A transcript is processed only if it has at least 3 characters and nothing is being processed. */
  predicate ShouldProcess(transcript: string, processing: bool)
  {
    transcript != "" && |transcript| >= 3 && !processing
  }

  /** The command text all tests run on: `transcript.toLowerCase().trim()`. */
  function Command(transcript: string): (c: string)
    ensures |c| <= |transcript|
    ensures forall i :: 0 <= i < |c| ==> !Text.IsUpper(c[i])
  {
    var lower := Text.Lower(transcript);
    Text.TrimIsSlice(lower);
    Text.Trim(lower)
  }

  predicate AsksNavigation(command: string)
  {
    Text.Includes(command, "go to") || Text.Includes(command, "show me") || Text.Includes(command, "open")
  }

  predicate AsksDeviceControl(command: string)
  {
    Text.Includes(command, "turn on") || Text.Includes(command, "turn off")
  }

  predicate AsksRoutine(command: string)
  {
    Text.Includes(command, "run") || Text.Includes(command, "execute") || Text.Includes(command, "start routine")
  }

  predicate AsksHelp(command: string)
  {
    Text.Includes(command, "help") || Text.Includes(command, "what can you do")
  }

  datatype Category = Navigation | DeviceControl | RoutineRun | Help | Unknown

  /** The category of a command: the first test in the order navigation, device, routine, help that passes. */
  function Classify(command: string): (c: Category)
    ensures c == Navigation <==> AsksNavigation(command)
    ensures c == DeviceControl <==> !AsksNavigation(command) && AsksDeviceControl(command)
    ensures c == RoutineRun <==> !AsksNavigation(command) && !AsksDeviceControl(command) && AsksRoutine(command)
    ensures c == Help <==>
      !AsksNavigation(command) && !AsksDeviceControl(command) && !AsksRoutine(command) && AsksHelp(command)
  {
    if AsksNavigation(command) then Navigation
    else if AsksDeviceControl(command) then DeviceControl
    else if AsksRoutine(command) then RoutineRun
    else if AsksHelp(command) then Help
    else Unknown
  }

  /** What the command makes the application do besides answering. */
  datatype Effect = NoEffect | Navigate(route: string) | Switch(deviceId: string, isOn: bool) | Run(routineId: string)

  datatype Reply = Reply(effect: Effect, response: string)

  const NavigationFailure := "I didn't understand where to navigate to"
  const DeviceFailure := "I couldn't find that device"
  const RoutineFailure := "I couldn't find that routine"
  const HelpText := "You can ask me to navigate to different sections, turn devices on or off, or run routines"
  const UnknownText := "I didn't understand that command"

  /** The reply to a navigation command: destinations are checked in a fixed order. */
  function NavigationReply(command: string): (r: Reply)
    ensures r.effect.Navigate? || r == Reply(NoEffect, NavigationFailure)
    ensures r.effect == Navigate("/") <==> Text.Includes(command, "dashboard") || Text.Includes(command, "home")
    ensures r.effect == NoEffect <==>
      !Text.Includes(command, "dashboard") && !Text.Includes(command, "home") &&
      !Text.Includes(command, "devices") && !Text.Includes(command, "rooms") &&
      !Text.Includes(command, "routines") && !Text.Includes(command, "energy") &&
      !Text.Includes(command, "settings")
  {
    if Text.Includes(command, "dashboard") || Text.Includes(command, "home") then Reply(Navigate("/"), "Opening dashboard")
    else if Text.Includes(command, "devices") then Reply(Navigate("/devices"), "Opening devices")
    else if Text.Includes(command, "rooms") then Reply(Navigate("/rooms"), "Opening rooms")
    else if Text.Includes(command, "routines") then Reply(Navigate("/routines"), "Opening routines")
    else if Text.Includes(command, "energy") then Reply(Navigate("/energy"), "Opening energy monitoring")
    else if Text.Includes(command, "settings") then Reply(Navigate("/settings"), "Opening settings")
    else Reply(NoEffect, NavigationFailure)
  }

  /** The words a device or routine answers to: its lower-cased name, then its lower-cased aliases. */
  function Keywords(name: string, aliases: seq<string>): (k: seq<string>)
    ensures |k| == |aliases| + 1 && k[0] == Text.Lower(name)
    ensures forall i :: 0 <= i < |aliases| ==> k[i + 1] == Text.Lower(aliases[i])
  {
    [Text.Lower(name)] + Lists.MapSeq(aliases, Text.Lower)
  }

  /** `keywords.some(keyword => command.includes(keyword))` */
  predicate Mentions(command: string, keywords: seq<string>)
  {
    exists k :: 0 <= k < |keywords| && Text.Includes(command, keywords[k])
  }

  predicate MentionsDevice(command: string, d: Devices.Device)
  {
    Mentions(command, Keywords(d.name, d.aliases))
  }

  predicate MentionsRoutine(command: string, r: Routines.Routine)
  {
    Mentions(command, Keywords(r.name, r.aliases))
  }

  /** The position of the device the command picks: the first one it mentions, not the best one. */
  function DeviceChoice(command: string, devices: seq<Devices.Device>): (r: Option<nat>)
    ensures r.Some? ==> r.value < |devices| && MentionsDevice(command, devices[r.value])
    ensures r.Some? ==> forall j :: 0 <= j < r.value ==> !MentionsDevice(command, devices[j])
    ensures r.None? <==> forall j :: 0 <= j < |devices| ==> !MentionsDevice(command, devices[j])
  {
    Lists.FindFirst(devices, (d: Devices.Device) => MentionsDevice(command, d))
  }

  /** The position of the routine the command picks: the first one it mentions. */
  function RoutineChoice(command: string, routines: seq<Routines.Routine>): (r: Option<nat>)
    ensures r.Some? ==> r.value < |routines| && MentionsRoutine(command, routines[r.value])
    ensures r.Some? ==> forall j :: 0 <= j < r.value ==> !MentionsRoutine(command, routines[j])
    ensures r.None? <==> forall j :: 0 <= j < |routines| ==> !MentionsRoutine(command, routines[j])
  {
    Lists.FindFirst(routines, (x: Routines.Routine) => MentionsRoutine(command, x))
  }

  /**
   * The reply to a command, given the device and routine lists at that moment.
   * A navigation command only navigates; a device command switches the first
   * device it mentions, on exactly when it says "turn on"; a routine command
   * runs the first routine it mentions; otherwise nothing but an answer.
   */
  function Interpret(command: string, devices: seq<Devices.Device>, routines: seq<Routines.Routine>): (r: Reply)
    ensures r.effect.Navigate? ==> Classify(command) == Navigation
    ensures r.effect.Switch? <==> Classify(command) == DeviceControl && DeviceChoice(command, devices).Some?
    ensures r.effect.Switch? ==>
      var i := DeviceChoice(command, devices).value;
      r.effect.deviceId == devices[i].id &&
      (r.effect.isOn <==> Text.Includes(command, "turn on")) &&
      r.response == (if r.effect.isOn then "Turned on " else "Turned off ") + devices[i].name
    ensures r.effect.Run? <==> Classify(command) == RoutineRun && RoutineChoice(command, routines).Some?
    ensures r.effect.Run? ==>
      var i := RoutineChoice(command, routines).value;
      r.effect.routineId == routines[i].id && r.response == "Executing routine: " + routines[i].name
    ensures Classify(command) == DeviceControl && DeviceChoice(command, devices).None? ==>
      r == Reply(NoEffect, DeviceFailure)
    ensures Classify(command) == RoutineRun && RoutineChoice(command, routines).None? ==>
      r == Reply(NoEffect, RoutineFailure)
    ensures Classify(command) == Help ==> r == Reply(NoEffect, HelpText)
    ensures Classify(command) == Unknown ==> r == Reply(NoEffect, UnknownText)
  {
    match Classify(command)
    case Navigation => NavigationReply(command)
    case DeviceControl =>
      var isOn := Text.Includes(command, "turn on");
      (match DeviceChoice(command, devices)
       case Some(i) => Reply(Switch(devices[i].id, isOn), (if isOn then "Turned on " else "Turned off ") + devices[i].name)
       case None => Reply(NoEffect, DeviceFailure))
    case RoutineRun =>
      (match RoutineChoice(command, routines)
       case Some(i) => Reply(Run(routines[i].id), "Executing routine: " + routines[i].name)
       case None => Reply(NoEffect, RoutineFailure))
    case Help => Reply(NoEffect, HelpText)
    case Unknown => Reply(NoEffect, UnknownText)
  }

  /** The reply to a device command whose chosen device is the `i`-th. */
  lemma SwitchesChosen(command: string, devices: seq<Devices.Device>, routines: seq<Routines.Routine>, i: nat)
    requires Classify(command) == DeviceControl && DeviceChoice(command, devices) == Some(i)
    ensures i < |devices|
    ensures Interpret(command, devices, routines) ==
      Reply(Switch(devices[i].id, Text.Includes(command, "turn on")),
        (if Text.Includes(command, "turn on") then "Turned on " else "Turned off ") + devices[i].name)
  {
  }

  /** When the first device is not mentioned and the second is, the second is chosen. */
  lemma SecondDeviceChosen(command: string, devices: seq<Devices.Device>)
    requires |devices| >= 2
    requires !MentionsDevice(command, devices[0]) && MentionsDevice(command, devices[1])
    ensures DeviceChoice(command, devices) == Some(1)
  {
  }

  /** When the first routine is not mentioned and the second is, the second is chosen. */
  lemma SecondRoutineChosen(command: string, routines: seq<Routines.Routine>)
    requires |routines| >= 2
    requires !MentionsRoutine(command, routines[0]) && MentionsRoutine(command, routines[1])
    ensures RoutineChoice(command, routines) == Some(1)
  {
  }

  /** The reply to a routine command whose chosen routine is the `i`-th. */
  lemma RunsChosen(command: string, devices: seq<Devices.Device>, routines: seq<Routines.Routine>, i: nat)
    requires Classify(command) == RoutineRun && RoutineChoice(command, routines) == Some(i)
    ensures i < |routines|
    ensures Interpret(command, devices, routines) ==
      Reply(Run(routines[i].id), "Executing routine: " + routines[i].name)
  {
  }

  /** A command that contains one of the keywords, at any position, mentions the item. */
  lemma MentionedAt(command: string, keywords: seq<string>, k: nat, at: nat)
    requires k < |keywords| && at + |keywords[k]| <= |command|
    requires command[at..at + |keywords[k]|] == keywords[k]
    ensures Mentions(command, keywords)
  {
    Text.IncludesAt(command, keywords[k], at);
  }

  /** A transcript already in lower case with no surrounding blanks is its own command. */
  lemma CommandOfNormalized(t: string)
    requires forall i :: 0 <= i < |t| ==> !Text.IsUpper(t[i])
    requires t != [] ==> !Text.IsSpace(t[0]) && !Text.IsSpace(t[|t| - 1])
    ensures Command(t) == t
  {
    Text.LowerOfLowercase(t);
    Text.TrimUnpadded(t);
  }

  /** A keyword with a letter the command lacks is not in the command. */
  lemma LacksKeyword(command: string, word: string, k: nat)
    requires k < |word| && Text.LowerChar(word[k]) !in command
    ensures !Text.Includes(command, Text.Lower(word))
  {
    Text.NotIncludesByChar(command, Text.Lower(word), k);
  }

  /** A keyword written in lower case is looked for as written. */
  lemma LowercaseKeyword(command: string, word: string)
    requires forall i :: 0 <= i < |word| ==> !Text.IsUpper(word[i])
    ensures Text.Includes(command, Text.Lower(word)) == Text.Includes(command, word)
  {
    Text.LowerOfLowercase(word);
  }

  /** A command that contains neither the name nor any alias does not mention the item. */
  lemma MentionsNone(command: string, name: string, aliases: seq<string>)
    requires !Text.Includes(command, Text.Lower(name))
    requires forall i :: 0 <= i < |aliases| ==> !Text.Includes(command, Text.Lower(aliases[i]))
    ensures !Mentions(command, Keywords(name, aliases))
  {
  }

  /** "run movie night" is its own command. */
  lemma MovieNightCommand()
    ensures Command("run movie night") == "run movie night"
  {
    CommandOfNormalized("run movie night");
  }

  /** "run movie night" asks for a routine: it has "run" and none of the earlier phrases. */
  lemma MovieNightAsksRoutine()
    ensures Classify("run movie night") == RoutineRun
  {
    var c := "run movie night";
    Text.NotIncludesByPair(c, "go to", 0);
    Text.NotIncludesByChar(c, "show me", 0);
    Text.NotIncludesByChar(c, "open", 1);
    Text.NotIncludesByPair(c, "turn on", 0);
    Text.NotIncludesByChar(c, "turn off", 6);
    Text.IncludesAt(c, "run", 0);
  }

  /** A command with no 'd', no 'w' and no "morning" does not mention Good Morning. */
  lemma MissesGoodMorning(command: string)
    requires 'd' !in command && 'w' !in command && !Text.Includes(command, "morning")
    ensures !Mentions(command, Keywords("Good Morning", ["morning", "wake up"]))
  {
    LacksKeyword(command, "Good Morning", 3);
    LowercaseKeyword(command, "morning");
    LacksKeyword(command, "wake up", 0);
    MentionsNone(command, "Good Morning", ["morning", "wake up"]);
  }

  /** Good Night is mentioned through its alias "night". */
  lemma MovieNightMentionsGoodNight()
    ensures MentionsRoutine("run movie night", Routines.Seed()[1])
  {
    var r := Routines.Seed()[1];
    assert r.aliases == ["night", "sleep"];
    Text.LowerOfLowercase("night");
    MentionedAt("run movie night", Keywords(r.name, r.aliases), 1, 10);
  }

  /** The reply that names the second seeded routine. */
  lemma GoodNightReply()
    ensures Routines.Seed()[1].id == "2"
    ensures "Executing routine: " + Routines.Seed()[1].name == "Executing routine: Good Night"
  {
  }

  /** Of the seeded routines, "run movie night" picks the second, Good Night. */
  lemma MovieNightChoosesGoodNight()
    ensures RoutineChoice("run movie night", Routines.Seed()) == Some(1)
  {
    var rs := Routines.Seed();
    assert rs[0].name == "Good Morning" && rs[0].aliases == ["morning", "wake up"];
    Text.NotIncludesByPair("run movie night", "morning", 1);
    MissesGoodMorning("run movie night");
    MovieNightMentionsGoodNight();
    SecondRoutineChosen("run movie night", rs);
  }

  /**
   * "run movie night" runs Good Night, whose alias "night" occurs in it, and not
   * Movie Night, whatever the devices are.
   */
  lemma MovieNightRunsGoodNight(devices: seq<Devices.Device>)
    ensures Interpret(Command("run movie night"), devices, Routines.Seed()) ==
      Reply(Run("2"), "Executing routine: Good Night")
  {
    var c, rs := "run movie night", Routines.Seed();
    MovieNightCommand();
    MovieNightAsksRoutine();
    MovieNightChoosesGoodNight();
    GoodNightReply();
    RunsChosen(c, devices, rs, 1);
  }

  /** "turn on kitchen speaker" is its own command. */
  lemma KitchenSpeakerCommand()
    ensures Command("turn on kitchen speaker") == "turn on kitchen speaker"
  {
    CommandOfNormalized("turn on kitchen speaker");
  }

  /** "turn on kitchen speaker" has none of the navigation phrases. */
  lemma KitchenSpeakerNotNavigation()
    ensures !AsksNavigation("turn on kitchen speaker")
  {
    var c := "turn on kitchen speaker";
    Text.NotIncludesByChar(c, "go to", 0);
    Text.NotIncludesByChar(c, "show me", 3);
    Text.NotIncludesByPair(c, "open", 0);
  }

  /** "turn on kitchen speaker" asks to switch a device on. */
  lemma KitchenSpeakerAsksDevice()
    ensures Classify("turn on kitchen speaker") == DeviceControl
    ensures Text.Includes("turn on kitchen speaker", "turn on")
  {
    KitchenSpeakerNotNavigation();
    Text.IncludesAt("turn on kitchen speaker", "turn on", 0);
  }

  /** A command with neither 'l' nor 'm' does not mention Living Room Lights. */
  lemma MissesLivingRoomLights(command: string)
    requires 'l' !in command && 'm' !in command
    ensures !Mentions(command, Keywords("Living Room Lights", ["main lights", "living room"]))
  {
    LacksKeyword(command, "Living Room Lights", 0);
    LacksKeyword(command, "main lights", 0);
    LacksKeyword(command, "living room", 0);
    MentionsNone(command, "Living Room Lights", ["main lights", "living room"]);
  }

  /** Kitchen Lights is mentioned through its alias "kitchen". */
  lemma KitchenSpeakerMentionsKitchenLights(t: int)
    ensures MentionsDevice("turn on kitchen speaker", Devices.Seed(t)[1])
  {
    var d := Devices.Seed(t)[1];
    assert d.aliases == ["kitchen"];
    Text.LowerOfLowercase("kitchen");
    MentionedAt("turn on kitchen speaker", Keywords(d.name, d.aliases), 1, 8);
  }

  /** The reply that names the second seeded device. */
  lemma KitchenLightsReply(t: int)
    ensures Devices.Seed(t)[1].id == "2"
    ensures "Turned on " + Devices.Seed(t)[1].name == "Turned on Kitchen Lights"
  {
  }

  /** Of the seeded devices, "turn on kitchen speaker" picks the second, Kitchen Lights. */
  lemma KitchenSpeakerChoosesKitchenLights(t: int)
    ensures DeviceChoice("turn on kitchen speaker", Devices.Seed(t)) == Some(1)
  {
    var ds := Devices.Seed(t);
    assert ds[0].name == "Living Room Lights" && ds[0].aliases == ["main lights", "living room"];
    MissesLivingRoomLights("turn on kitchen speaker");
    KitchenSpeakerMentionsKitchenLights(t);
    SecondDeviceChosen("turn on kitchen speaker", ds);
  }

  /**
   * "turn on kitchen speaker" switches on Kitchen Lights, whose alias "kitchen"
   * comes earlier in the list than the Kitchen Speaker itself.
   */
  lemma KitchenSpeakerSwitchesKitchenLights(t: int, routines: seq<Routines.Routine>)
    ensures Interpret(Command("turn on kitchen speaker"), Devices.Seed(t), routines) ==
      Reply(Switch("2", true), "Turned on Kitchen Lights")
  {
    var c, ds := "turn on kitchen speaker", Devices.Seed(t);
    KitchenSpeakerCommand();
    KitchenSpeakerAsksDevice();
    KitchenSpeakerChoosesKitchenLights(t);
    KitchenLightsReply(t);
    SwitchesChosen(c, ds, routines, 1);
  }

  /** A navigation word wins over everything after it: "open" in a device command navigates instead. */
  lemma NavigationWins(command: string)
    requires Text.Includes(command, "open") && Text.Includes(command, "turn on")
    ensures Classify(command) == Navigation
  {
  }

  /** The route an effect navigates to, if any. */
  function RouteOf(e: Effect): Option<string>
  {
    if e.Navigate? then Some(e.route) else None
  }

  /** The device list after an effect: only a switch changes it. */
  function DevicesAfter(e: Effect, ds: seq<Devices.Device>, now: int): seq<Devices.Device>
  {
    if e.Switch? then Devices.SetPower(ds, e.deviceId, e.isOn, now) else ds
  }

  /** The routine list after an effect: only a run changes it. */
  function RoutinesAfter(e: Effect, rs: seq<Routines.Routine>): seq<Routines.Routine>
  {
    if e.Run? then Routines.Execute(rs, e.routineId) else rs
  }

  /**
   * The panel's own state. `processing` blocks a second command until the
   * first has been answered; `response` is the answer on display.
   */
  class Panel {
    var processing: bool
    var response: string

    constructor ()
      ensures !processing && response == ""
    {
      processing, response := false, "";
    }

    /**
     * The effect that reacts to a new transcript, as one step at clock `now`:
     * it returns the route navigated to, if any, and switches one device or
     * runs one routine when the command asks for it and names one.
     */
    method ProcessCommand(voice: VoiceStore.Voice, devices: Devices.DeviceStore,
                          routines: Routines.RoutineStore, now: int) returns (route: Option<string>)
      modifies this, devices, routines
      ensures !ShouldProcess(voice.transcript, old(processing)) ==>
        route == None && processing == old(processing) && response == old(response) &&
        devices.devices == old(devices.devices) && routines.routines == old(routines.routines)
      ensures ShouldProcess(voice.transcript, old(processing)) ==>
        var r := Interpret(Command(voice.transcript), old(devices.devices), old(routines.routines));
        processing && response == r.response && route == RouteOf(r.effect) &&
        devices.devices == DevicesAfter(r.effect, old(devices.devices), now) &&
        routines.routines == RoutinesAfter(r.effect, old(routines.routines))
    {
      route := None;
      if !ShouldProcess(voice.transcript, processing) {
        return;
      }
      processing := true;
      var r := Interpret(Command(voice.transcript), devices.devices, routines.routines);
      route := Apply(r.effect, devices, routines, now);
      response := r.response;
    }

    /** Carries out an effect on the stores: at most one store action runs. */
    method Apply(e: Effect, devices: Devices.DeviceStore, routines: Routines.RoutineStore, now: int)
      returns (route: Option<string>)
      modifies devices, routines
      ensures route == RouteOf(e)
      ensures devices.devices == DevicesAfter(e, old(devices.devices), now)
      ensures routines.routines == RoutinesAfter(e, old(routines.routines))
    {
      route := RouteOf(e);
      if e.Switch? {
        devices.ToggleDevice(e.deviceId, e.isOn, now);
      } else if e.Run? {
        var _ := routines.ExecuteRoutine(e.routineId);
      }
    }

    /** The first timer, one second after a command: the transcript is cleared and input is accepted again. */
    method FinishProcessing(voice: VoiceStore.Voice)
      modifies this, voice
      ensures !processing && response == old(response)
      ensures voice.transcript == "" && voice.isListening == old(voice.isListening)
    {
      voice.ResetTranscript();
      processing := false;
    }

    /**
     * The second timer, three seconds later, as written: it stops listening if
     * listening was on WHEN THE COMMAND WAS PROCESSED (`listeningThen`, the
     * value the timer captured), whatever the state is now, and clears the answer.
     */
    method AutoClose(voice: VoiceStore.Voice, listeningThen: bool)
      modifies this, voice
      ensures response == "" && processing == old(processing)
      ensures voice.isListening == (if listeningThen then !old(voice.isListening) else old(voice.isListening))
    {
      if listeningThen {
        voice.ToggleListening();
      }
      response := "";
    }

    /** The second timer as intended: it reads the current listening state, so it can only stop listening. */
    method AutoCloseCurrent(voice: VoiceStore.Voice)
      modifies this, voice
      ensures response == "" && processing == old(processing)
      ensures !voice.isListening
      ensures voice.transcript == if old(voice.isListening) then "" else old(voice.transcript)
    {
      if voice.isListening {
        voice.ToggleListening();
      }
      response := "";
    }
  }

  /**
   * The captured flag can re-open the microphone: listening during a command,
   * the user closes the panel before the second timer, and the timer then
   * switches listening back on.
   */
  method ClosedPanelReopens(panel: Panel, voice: VoiceStore.Voice)
    requires voice.isListening
    modifies panel, voice
    ensures voice.isListening
  {
    var listeningThen := voice.isListening;
    panel.FinishProcessing(voice);
    voice.ToggleListening();
    assert !voice.isListening;
    panel.AutoClose(voice, listeningThen);
  }

  /** With the current flag read instead, the same sequence ends with the microphone off. */
  method ClosedPanelStaysClosed(panel: Panel, voice: VoiceStore.Voice)
    requires voice.isListening
    modifies panel, voice
    ensures !voice.isListening
  {
    panel.FinishProcessing(voice);
    voice.ToggleListening();
    panel.AutoCloseCurrent(voice);
  }
}
