/** The routing decision of `Bot.handle_new_message` (app/bot.py:103-146):
    which handler an inbound event reaches, given its text, its decoded
    button payload and the sender's record as loaded for this event.

    The guards are tried in a fixed order: the start keyword or a start
    command; the legacy-record marker `update == "2"`; a `menu` key in the
    payload, dispatched by handler name; and only then the free-text
    prompts, in the order group/teacher selection, search, subscription
    time, one-day date, the calendar emoji, "/debug", and the main menu. */
module Dispatch {
  import opened Values
  import opened Text
  import opened Records

  /** A decoded button payload: a JSON object with scalar values. */
  type Payload = map<string, Val>

  /** `payload.get(key, default)` */
  function PayloadGet(p: Payload, key: string, default: Val): Val
  {
    if key in p then p[key] else default
  }

  /** The handlers a `menu` payload may name. `getattr(self, menu)` looks the
      value up as a method name of the bot, so the actions are exactly the
      handler methods that accept a `payload` argument. */
  datatype Action =
    | SendScheduleMenu | SendSchedule | SendOneDaySchedule | SendChoiceGroup
    | SendSearch | SendSearchTeacher | SearchGroup | SetTeacher | SendTeacher
    | SendTeacherSchedule | ShowGroupsOrLocation | SendSettingsMenu
    | UnsubscribeSchedule | SubscribeSchedule | UpdateSubscribeDay
    | ChoseCalendar | CalendarLink | ChangeRole | SetRole | Search | Cancel
    | DebugMessage

  /** The method name a payload carries for an action. */
  function ActionName(a: Action): string
  {
    match a
    case SendScheduleMenu => "send_schedule_menu"
    case SendSchedule => "send_schedule"
    case SendOneDaySchedule => "send_one_day_schedule"
    case SendChoiceGroup => "send_choice_group"
    case SendSearch => "send_search"
    case SendSearchTeacher => "send_search_teacher"
    case SearchGroup => "search_group"
    case SetTeacher => "set_teacher"
    case SendTeacher => "send_teacher"
    case SendTeacherSchedule => "send_teacher_schedule"
    case ShowGroupsOrLocation => "show_groups_or_location"
    case SendSettingsMenu => "send_settings_menu"
    case UnsubscribeSchedule => "unsubscribe_schedule"
    case SubscribeSchedule => "subscribe_schedule"
    case UpdateSubscribeDay => "update_subscribe_day"
    case ChoseCalendar => "chose_calendar"
    case CalendarLink => "calendar_link"
    case ChangeRole => "change_role"
    case SetRole => "set_role"
    case Search => "search"
    case Cancel => "cancel"
    case DebugMessage => "debug_message"
  }

  /** The handler a method name denotes, if any. */
  function ActionNamed(name: string): (r: Option<Action>)
    ensures r.Some? ==> ActionName(r.value) == name
  {
    if name == "send_schedule_menu" then Some(SendScheduleMenu)
    else if name == "send_schedule" then Some(SendSchedule)
    else if name == "send_one_day_schedule" then Some(SendOneDaySchedule)
    else if name == "send_choice_group" then Some(SendChoiceGroup)
    else if name == "send_search" then Some(SendSearch)
    else if name == "send_search_teacher" then Some(SendSearchTeacher)
    else if name == "search_group" then Some(SearchGroup)
    else if name == "set_teacher" then Some(SetTeacher)
    else if name == "send_teacher" then Some(SendTeacher)
    else if name == "send_teacher_schedule" then Some(SendTeacherSchedule)
    else if name == "show_groups_or_location" then Some(ShowGroupsOrLocation)
    else if name == "send_settings_menu" then Some(SendSettingsMenu)
    else if name == "unsubscribe_schedule" then Some(UnsubscribeSchedule)
    else if name == "subscribe_schedule" then Some(SubscribeSchedule)
    else if name == "update_subscribe_day" then Some(UpdateSubscribeDay)
    else if name == "chose_calendar" then Some(ChoseCalendar)
    else if name == "calendar_link" then Some(CalendarLink)
    else if name == "change_role" then Some(ChangeRole)
    else if name == "set_role" then Some(SetRole)
    else if name == "search" then Some(Search)
    else if name == "cancel" then Some(Cancel)
    else if name == "debug_message" then Some(DebugMessage)
    else None
  }

  /** `menu in MENUS_LIST`, and the handler that value names. */
  function ParseAction(v: Val): (r: Option<Action>)
    ensures r.Some? ==> v == Str(ActionName(r.value))
  {
    if v.Str? then ActionNamed(v.s) else None
  }

  /** Handler names, block 1: each looks up its own handler. */
  lemma NamesLookUp1()
    ensures ActionNamed("send_schedule_menu") == Some(SendScheduleMenu)
    ensures ActionNamed("send_schedule") == Some(SendSchedule)
    ensures ActionNamed("send_one_day_schedule") == Some(SendOneDaySchedule)
    ensures ActionNamed("send_choice_group") == Some(SendChoiceGroup)
    ensures ActionNamed("send_search") == Some(SendSearch)
    ensures ActionNamed("send_search_teacher") == Some(SendSearchTeacher)
  {
  }

  /** Handler names, block 2. */
  lemma NamesLookUp2()
    ensures ActionNamed("search_group") == Some(SearchGroup)
    ensures ActionNamed("set_teacher") == Some(SetTeacher)
    ensures ActionNamed("send_teacher") == Some(SendTeacher)
    ensures ActionNamed("send_teacher_schedule") == Some(SendTeacherSchedule)
    ensures ActionNamed("show_groups_or_location") == Some(ShowGroupsOrLocation)
    ensures ActionNamed("send_settings_menu") == Some(SendSettingsMenu)
  {
  }

  /** Handler names, block 3. */
  lemma NamesLookUp3()
    ensures ActionNamed("unsubscribe_schedule") == Some(UnsubscribeSchedule)
    ensures ActionNamed("subscribe_schedule") == Some(SubscribeSchedule)
    ensures ActionNamed("update_subscribe_day") == Some(UpdateSubscribeDay)
    ensures ActionNamed("chose_calendar") == Some(ChoseCalendar)
    ensures ActionNamed("calendar_link") == Some(CalendarLink)
    ensures ActionNamed("change_role") == Some(ChangeRole)
  {
  }

  /** Handler names, block 4. */
  lemma NamesLookUp4()
    ensures ActionNamed("set_role") == Some(SetRole)
    ensures ActionNamed("search") == Some(Search)
    ensures ActionNamed("cancel") == Some(Cancel)
    ensures ActionNamed("debug_message") == Some(DebugMessage)
  {
  }

  /** Every action's name leads back to that action (so no two handlers
      share a name), and a value that is no action's name is refused. */
  lemma ActionNamesRoundTrip(a: Action)
    ensures ParseAction(Str(ActionName(a))) == Some(a)
  {
    match a
    case SendScheduleMenu => NamesLookUp1();
    case SendSchedule => NamesLookUp1();
    case SendOneDaySchedule => NamesLookUp1();
    case SendChoiceGroup => NamesLookUp1();
    case SendSearch => NamesLookUp1();
    case SendSearchTeacher => NamesLookUp1();
    case SearchGroup => NamesLookUp2();
    case SetTeacher => NamesLookUp2();
    case SendTeacher => NamesLookUp2();
    case SendTeacherSchedule => NamesLookUp2();
    case ShowGroupsOrLocation => NamesLookUp2();
    case SendSettingsMenu => NamesLookUp2();
    case UnsubscribeSchedule => NamesLookUp3();
    case SubscribeSchedule => NamesLookUp3();
    case UpdateSubscribeDay => NamesLookUp3();
    case ChoseCalendar => NamesLookUp3();
    case CalendarLink => NamesLookUp3();
    case ChangeRole => NamesLookUp3();
    case SetRole => NamesLookUp4();
    case Search => NamesLookUp4();
    case Cancel => NamesLookUp4();
    case DebugMessage => NamesLookUp4();
  }

  lemma ParseActionRefuses(v: Val)
    requires ParseAction(v).None?
    ensures forall a: Action :: v != Str(ActionName(a))
  {
    forall a: Action ensures v != Str(ActionName(a)) {
      ActionNamesRoundTrip(a);
    }
  }

  /** `"начать" or "start" or "сброс"`: Python's `or` yields its first
      non-empty operand, so the keyword compared against is "начать" alone. */
  function PyOr(a: string, b: string): string
  {
    if a != "" then a else b
  }

  const StartKeyword: string := PyOr("начать", PyOr("start", "сброс"))

  datatype Route =
    | Start                 // send_schedule_menu
    | Reonboard             // user_update_2
    | Handler(action: Action)  // getattr(self, menu)(user, payload=payload)
    | UnknownMenu           // logged, then send_schedule_menu
    | GroupText             // send_check_group
    | TeacherText           // search_teacher_to_set
    | ButtonsOnly           // "use the buttons" reminder
    | FoundTeacherText      // search_teacher_schedule
    | FoundGroupText        // search_check_group
    | SubscriptionText      // update_subscribe_time
    | DateText              // send_day_schedule_text
    | CalendarEmoji         // chose_calendar
    | DebugText             // debug_message
    | MainMenu              // send_schedule_menu

  predicate IsStart(text: string, p: Payload)
  {
    Lower(text) == StartKeyword || PayloadGet(p, "command", Str("")) == Str("start")
  }

  /** The guard chain of handle_new_message. */
  function Classify(text: string, p: Payload, row: Row): Route
  {
    var message := Lower(text);
    if IsStart(text, p) then Start
    else if Get(row, Update) == Str("2") then Reonboard
    else if "menu" in p then
      (match ParseAction(p["menu"])
       case Some(a) => Handler(a)
       case None => UnknownMenu)
    else if Get(row, CurrentName) == Pending then
      (if Get(row, Role) == Str(ROLE_STUDENT) then GroupText
       else if Get(row, Role) == Str(ROLE_TEACHER) then TeacherText
       else ButtonsOnly)
    else if Get(row, FoundName) == Pending && Get(row, FoundId) == Str("0") then
      (if Get(row, FoundType) == Str(ROLE_TEACHER) then FoundTeacherText else FoundGroupText)
    else if Get(row, SubscriptionDays) == Pending then SubscriptionText
    else if Get(row, ScheduleDayDate) == Pending then DateText
    else TextCommand(message)
  }

  /** The last guards: the calendar emoji, `/debug`, else the main menu. */
  function TextCommand(message: string): (r: Route)
    ensures r == CalendarEmoji || r == DebugText || r == MainMenu
  {
    if message == "📅" then CalendarEmoji
    else if message == "/debug" then DebugText
    else MainMenu
  }

  /** The routes answered by send_schedule_menu: the start keyword, an
      unknown menu name, and text no prompt is waiting for. */
  predicate ShowsMenu(r: Route)
  {
    r.Start? || r.UnknownMenu? || r.MainMenu?
  }

  /** Routes that read the message as free text. */
  predicate IsFreeText(r: Route)
  {
    r.GroupText? || r.TeacherText? || r.ButtonsOnly? || r.FoundTeacherText? || r.FoundGroupText?
    || r.SubscriptionText? || r.DateText? || r.CalendarEmoji? || r.DebugText? || r.MainMenu?
  }

  /** The start keyword is "начать" in any letter case; "start" and "сброс"
      typed as text are not start keywords. */
  lemma {:induction false} StartKeywordAsWritten(row: Row)
    ensures StartKeyword == "начать"
    ensures Classify("Начать", map[], row) == Start
    ensures Classify("start", map[], row) != Start
    ensures Classify("сброс", map[], row) != Start
    ensures Classify("start", map["command" := Str("start")], row) == Start
  {
    assert Lower("Начать") == "начать";
    assert Lower("start") == "start";
    assert Lower("сброс") == "сброс";
  }

  /** A payload carrying a `menu` key never reaches a free-text handler, and
      a free-text handler is reached only when the payload has no `menu` key. */
  lemma PayloadNeverReadAsText(text: string, p: Payload, row: Row)
    ensures "menu" in p ==> !IsFreeText(Classify(text, p, row))
    ensures IsFreeText(Classify(text, p, row))
      ==> "menu" !in p && !IsStart(text, p) && Get(row, Update) != Str("2")
  {
  }

  /** A `menu` value that names no handler falls back to the main menu, and
      one that does reaches that handler. */
  lemma MenuDispatch(text: string, p: Payload, row: Row, a: Action)
    requires !IsStart(text, p) && Get(row, Update) != Str("2")
    ensures p == p["menu" := Str(ActionName(a))] ==> Classify(text, p, row) == Handler(a)
    ensures "menu" in p && ParseAction(p["menu"]).None? ==> Classify(text, p, row) == UnknownMenu
  {
    ActionNamesRoundTrip(a);
  }

  /** While the group (or teacher) prompt is pending, every free-text event
      goes to the selection handler of the user's role, whatever the other
      prompts hold; and only then is a selection handler reached. */
  lemma PendingSelectionCapturesText(text: string, p: Payload, row: Row)
    ensures (Classify(text, p, row) in {GroupText, TeacherText, ButtonsOnly})
      <==> (!IsStart(text, p) && Get(row, Update) != Str("2") && "menu" !in p
            && Get(row, CurrentName) == Pending)
    ensures Classify(text, p, row) == GroupText
      <==> (!IsStart(text, p) && Get(row, Update) != Str("2") && "menu" !in p
            && Get(row, CurrentName) == Pending && Get(row, Role) == Str(ROLE_STUDENT))
  {
  }

  /** The subscription-time prompt is recognised by `subscription_days`, not
      by `subscription_time`: the time column plays no part in routing. */
  lemma SubscriptionGuardReadsDays(text: string, p: Payload, row: Row, v: Val)
    ensures Classify(text, p, row[SubscriptionTime := v]) == Classify(text, p, row)
    ensures Classify(text, p, row) == SubscriptionText ==> Get(row, SubscriptionDays) == Pending
  {
    assert forall f :: f != SubscriptionTime ==> Get(row[SubscriptionTime := v], f) == Get(row, f);
  }

  /** Each prompt is served only while its marker is set: a cleared marker
      ends the prompt, whatever else the record holds. */
  lemma RoutesNeedMarkers(text: string, p: Payload, row: Row)
    ensures Classify(text, p, row) == Reonboard ==> Get(row, Update) == Str("2")
    ensures Classify(text, p, row) in {GroupText, TeacherText, ButtonsOnly} ==> Get(row, CurrentName) == Pending
    ensures Classify(text, p, row) in {FoundTeacherText, FoundGroupText} ==>
      Get(row, FoundName) == Pending && Get(row, FoundId) == Str("0")
    ensures Classify(text, p, row) == SubscriptionText ==> Get(row, SubscriptionDays) == Pending
    ensures Classify(text, p, row) == DateText ==> Get(row, ScheduleDayDate) == Pending
  {
  }

  /** The free-text prompts are served in a fixed priority: a date prompt is
      served only when no selection, search or subscription prompt is
      pending, whatever the text. */
  lemma FreeTextPriority(text: string, p: Payload, row: Row)
    ensures Classify(text, p, row) == DateText ==>
      Get(row, CurrentName) != Pending
      && !(Get(row, FoundName) == Pending && Get(row, FoundId) == Str("0"))
      && Get(row, SubscriptionDays) != Pending
      && Get(row, ScheduleDayDate) == Pending
    ensures Classify(text, p, row) == SubscriptionText ==>
      Get(row, CurrentName) != Pending
      && !(Get(row, FoundName) == Pending && Get(row, FoundId) == Str("0"))
  {
  }
}
