/** The dialogue engine of app/bot.py: the record store and the outbound
    message log of one bot, `send_msg`, every handler, and
    `handle_new_message`, which loads (or creates) the sender's record,
    routes the event through the guard chain and runs one handler.

    The collaborators the engine calls but does not own are inputs: the
    schedule service (`get_group`, `get_teacher`, `format_schedule`), the
    stored-procedure builder `User.cancel_changes` and the wall clock travel
    in an `Env` value handed to each event; the message templates of
    app/utils/strings.py, `str(user)` and `urlencode` are fixed functions of
    the bot. Keyboards are recorded by kind only. */
module Engine {
  import opened Values
  import opened Text
  import opened Calendar
  import opened Records
  import opened Dispatch

  /** One (id, name) pair of a teacher search. */
  datatype Match = Match(id: Val, name: Val)

  /** The keyboard attached to an outbound message, by kind. */
  datatype Keyboard =
    | NoKeyboard | ScheduleMenu | ChooseRoleMenu | BackToChoosingRole
    | FindScheduleMenu | FoundList(matches: seq<Match>, toSet: bool)
    | EmptyKeyboard | SettingsMenu | SubscribeStartMenu | SubscribeDayMenu
    | SearchMenu | InlineDate(date: Date)

  /** One `messages.send` call. */
  datatype Send = Send(peer: int, text: string, keyboard: Keyboard)

  /** The templates of app/utils/strings.py, with their `format` arguments. */
  datatype Template =
    | ChooseMenu | CantGetSchedule | WriteDate | IncorrectDate
    | CantFindScheduleByDate(date: string) | GroupChangedFor(group: string)
    | TimeoutError | GroupNotFound(group: string) | GroupFound(group: string)
    | WriteTeacher | WriteGroup | SearchingForTeacher | FoundTeacher(teacher: string)
    | ChooseTimedelta | ChooseCurrentTeacher | TeacherNotFound | CantFindUser
    | ErrorText | WhatToSet | IncorrectDateFormat | Welcome | GroupExample
    | TeacherExample | WhatToFind

  /** `get_group(name)`: `has_error`, `error_text`, `data`. */
  datatype GroupAnswer = GroupAnswer(hasError: bool, errorText: Val, data: Val)

  /** `get_teacher(name)`: `has_error` and the matching (id, name) pairs. */
  datatype TeacherAnswer = TeacherAnswer(hasError: bool, matches: seq<Match>)

  /** The arguments of one `format_schedule` call; `days` is None where the
      call leaves it at its default. */
  datatype Query = Query(subject: Val, kind: Val, startDay: Val, days: Option<Val>,
                         showGroups: Val, showLocation: Val)

  /** What the world answers while one event is handled. */
  datatype Env = Env(
    clock: Clock,
    getGroup: string -> GroupAnswer,
    getTeacher: string -> TeacherAnswer,
    formatSchedule: Query -> Option<string>,
    cancelChanges: User -> Option<Patch>)

  /** A handler's outcome: the user it returns, None, or a KeyError raised
      on a payload key the handler requires. */
  datatype Ret = Returned(user: User) | ReturnedNone | Raised

  /** An inbound `message_new` event with its payload decoded. */
  datatype Event = Event(peer: int, text: string, payload: Payload)

  // ---------------------------------------------------------------------
  // Outbound messages

  /** The transport calls of `send_msg(peer, message, keyboard)`: one per
      4000-character slice, in order, all to the peer, all with the keyboard. */
  function Deliver(peer: int, message: string, keyboard: Keyboard): (out: seq<Send>)
    ensures |out| == PartCount(|message|)
    ensures forall j :: 0 <= j < |out| ==> out[j].peer == peer && out[j].keyboard == keyboard
  {
    var parts := Slices(message);
    seq(|parts|, j requires 0 <= j < |parts| => Send(peer, parts[j], keyboard))
  }

  function Texts(out: seq<Send>): (texts: seq<string>)
    ensures |texts| == |out|
  {
    seq(|out|, j requires 0 <= j < |out| => out[j].text)
  }

  /** What the peer receives for one `send_msg`: the message itself, cut into
      parts of 1 to 4000 characters; nothing at all for an empty message. */
  lemma DeliverReassembles(peer: int, message: string, keyboard: Keyboard)
    ensures Concat(Texts(Deliver(peer, message, keyboard))) == message
    ensures Deliver(peer, message, keyboard) == [] <==> message == ""
    ensures forall j :: 0 <= j < |Deliver(peer, message, keyboard)| ==>
      0 < |Deliver(peer, message, keyboard)[j].text| <= MaxPart
  {
    assert Texts(Deliver(peer, message, keyboard)) == Slices(message);
    SlicesReassemble(message);
    SlicesBounded(message);
  }

  /** The log only grew, and every new entry went to the peer. */
  ghost predicate SentOnlyTo(before: seq<Send>, after: seq<Send>, peer: int)
  {
    |before| <= |after| && after[..|before|] == before
    && forall j :: |before| <= j < |after| ==> after[j].peer == peer
  }

  // ---------------------------------------------------------------------
  // Fixed texts of the handlers

  const ButtonsOnlyText: string :=
    "Сделайте выбор кнопками внизу\n\nЕсли кнопки не отображаются - воспользуйтесь "
    + "официальным клиентом ВКонтакте последней версии"
  const Apology: string := "У нас что-то пошло не по плану, попробуй написать позже..."
  const SubscribeAsk: string :=
    "Напишите или выберите время в которое хотите получать раписание\n\nНапример: «12:35»"
  const UnsubscribedText: string := "Вы отписались от рассылки расписания"
  const SubscribeFailed: string := "Не удалось добавить в рассылку расписания"
  const CalendarFace: string := "(¬‿¬)"
  const CalendarSite: string := "https://schedule.fa.ru/?"

  const SETTINGS_TYPE_GROUPS: string := "toggle_groups"
  const SETTINGS_TYPE_LOCATION: string := "toggle_location"

  /** "группы" for a student's record, "преподавателя" for any other. */
  function ScheduleFor(role: Val): string
  {
    if role == Str(ROLE_STUDENT) then "группы" else "преподавателя"
  }

  function SubscriptionTimeText(role: Val, name: Val, time: string): string
  {
    "Формируем расписания для " + ScheduleFor(role) + " " + Show(name) + " в " + time
    + "\nВыберите период, на который вы хотите получать расписание"
  }

  function SubscribedText(role: Val, group: Val, time: Val, day: string): string
  {
    "Вы подписались на раписание " + ScheduleFor(role) + " " + Show(group)
    + "\nТеперь каждый день в " + Show(time) + " вы будете получать расписание на " + day
  }

  /** The five subscription periods `update_subscribe_day` accepts, with the
      words its confirmation uses for each. */
  function PeriodDay(kind: Val): (day: Option<string>)
  {
    if kind == Str("today") then Some("сегодня")
    else if kind == Str("tomorrow") then Some("завтра")
    else if kind == Str("today_and_tomorrow") then Some("текущий и следующий день")
    else if kind == Str("this_week") then Some("текущую неделю")
    else if kind == Str("next_week") then Some("следующую неделю")
    else None
  }

  lemma PeriodsAccepted(kind: Val)
    ensures PeriodDay(kind).Some? <==>
      kind in {Str("today"), Str("tomorrow"), Str("today_and_tomorrow"), Str("this_week"), Str("next_week")}
  {
  }

  /** The settings toggle's confirmation for the new value of the column. */
  function ToggleText(groups: bool, shown: bool): string
  {
    if groups then
      (if shown then "Список групп будет отображаться в раписании"
       else "Список групп не будет отображаться в раписании")
    else
      (if shown then "Список корпусов будет отображаться в раписании"
       else "Список корпусов не будет отображаться в раписании")
  }

  // ---------------------------------------------------------------------
  // The record changes the handlers make

  /** send_choice_group: the record awaits a role and then a name. */
  const AwaitRole: Patch := map[CurrentName := Pending, Role := Null]
  /** set_role: the role is chosen, the name is awaited. */
  function RoleChosen(role: Val): Patch
  {
    map[CurrentName := Pending, Role := role]
  }
  /** send_check_group on success. */
  function GroupSet(name: string, id: Val): Patch
  {
    map[CurrentName := Str(name), CurrentId := id, ShowLocation := Flag(false), ShowGroups := Flag(false)]
  }
  /** search_teacher_to_set on one match, set_teacher. */
  function TeacherSet(id: Val, name: Val): Patch
  {
    map[CurrentId := id, CurrentName := name, ShowLocation := Flag(true), ShowGroups := Flag(true)]
  }
  /** send_search: a search for a teacher or a group awaits its text. */
  function StartSearch(kind: string): Patch
  {
    map[FoundId := Str("0"), FoundName := Pending, FoundType := Str(kind)]
  }
  /** A search result becomes the found subject. */
  function Found(id: Val, name: Val): Patch
  {
    map[FoundId := id, FoundName := name]
  }
  /** The search is over. */
  const EndSearch: Patch := map[FoundId := Null, FoundName := Null, FoundType := Null]
  /** send_one_day_schedule / send_day_schedule_text. */
  const AwaitDate: Patch := map[ScheduleDayDate := Pending]
  const DateServed: Patch := map[ScheduleDayDate := Null]
  /** subscribe_schedule: all three subscription columns await input. */
  const AwaitSubscription: Patch :=
    map[SubscriptionTime := Pending, SubscriptionGroup := Pending, SubscriptionDays := Pending]
  /** update_subscribe_time on a valid time. */
  function TimeChosen(time: string, group: Val): Patch
  {
    map[SubscriptionTime := Str(time), SubscriptionGroup := group]
  }
  /** show_groups_or_location: the display flag `f` takes the opposite of
      its truth value. */
  function Flipped(row: Row, f: Field): Patch
  {
    map[f := Flag(!Truthy(Get(row, f)))]
  }
  /** user_update_2: name and role cleared, the legacy marker retired. */
  const Renew: Patch := map[CurrentName := Null, Role := Null, Update := Str("3")]

  // ---------------------------------------------------------------------
  // Schedule queries

  /** The `format_schedule` call of `send_schedule` for a payload: start_day
      and days default to 0 and 1, the week sentinels are resolved against
      today's weekday, and the record supplies subject, kind and display
      flags. */
  function ScheduleQuery(row: Row, p: Payload, clock: Clock): Query
    requires ValidClock(clock)
  {
    var startDay := if |p| > 0 then PayloadGet(p, "start_day", Int(0)) else Int(0);
    var days := if |p| > 0 then PayloadGet(p, "days", Int(1)) else Int(1);
    Query(Get(row, CurrentId), Get(row, Role),
          ResolveStartDay(startDay, IsoWeekday(clock.today)), Some(days),
          Get(row, ShowGroups), Get(row, ShowLocation))
  }

  /** The `format_schedule` call of `send_teacher_schedule`: the found
      subject, groups and locations always shown. */
  function TeacherQuery(row: Row, p: Payload, clock: Clock): Query
    requires ValidClock(clock)
  {
    Query(Get(row, FoundId), Get(row, FoundType),
          ResolveStartDay(PayloadGet(p, "start_day", Int(0)), IsoWeekday(clock.today)),
          Some(PayloadGet(p, "days", Int(1))), Flag(true), Flag(true))
  }

  /** The "this week" and "next week" buttons ask for the schedule from a
      Monday: this week's (at most six days back) and next week's (one to
      seven days ahead); a plain offset is passed through. */
  lemma WeekButtons(row: Row, p: Payload, clock: Clock)
    requires ValidClock(clock)
    ensures var q := ScheduleQuery(row, p, clock);
      var t := TeacherQuery(row, p, clock);
      var n := Ordinal(clock.today);
      (PayloadGet(p, "start_day", Int(0)) == Int(-1) ==>
        q.startDay.Int? && -6 <= q.startDay.i <= 0 && WeekdayOfOrdinal(n + q.startDay.i) == 1
        && t.startDay == q.startDay)
      && (PayloadGet(p, "start_day", Int(0)) == Int(-2) ==>
        q.startDay.Int? && 1 <= q.startDay.i <= 7 && WeekdayOfOrdinal(n + q.startDay.i) == 1
        && t.startDay == q.startDay)
      && (p == map[] ==> q.startDay == Int(0) && q.days == Some(Int(1)))
      && (PayloadGet(p, "start_day", Int(0)) !in {Int(-1), Int(-2)} ==>
        q.startDay == PayloadGet(p, "start_day", Int(0)))
  {
    SentinelsLandOnMonday(clock.today);
    SameStartDay(row, p, clock);
  }

  /** Both schedule handlers resolve the payload's start_day the same way;
      an empty payload has none. */
  lemma SameStartDay(row: Row, p: Payload, clock: Clock)
    requires ValidClock(clock)
    ensures ScheduleQuery(row, p, clock).startDay
         == ResolveStartDay(PayloadGet(p, "start_day", Int(0)), IsoWeekday(clock.today))
         == TeacherQuery(row, p, clock).startDay
  {
    if "start_day" in p {
      assert |p| > 0;
    }
  }

  /** The record as `handle_new_message` loads it: a new peer has an empty row. */
  function LoadedRow(store: Store, peer: int): Row
  {
    if peer in store then store[peer] else map[]
  }

  predicate NeedsOnboarding(row: Row)
  {
    Get(row, CurrentName) == Null || Get(row, Role) == Null || Get(row, CurrentName) == Pending
  }

  // ---------------------------------------------------------------------
  // The bot

  class Bot {
    const strings: Template -> string
    const showUser: User -> string
    const urlencode: seq<(string, string)> -> string

    /** The `users` table. */
    var users: Store
    /** Every `messages.send` call made so far, in order. */
    var sent: seq<Send>

    constructor (strings: Template -> string, showUser: User -> string,
                 urlencode: seq<(string, string)> -> string)
      ensures this.strings == strings && this.showUser == showUser && this.urlencode == urlencode
      ensures users == map[] && sent == []
    {
      this.strings := strings;
      this.showUser := showUser;
      this.urlencode := urlencode;
      users := map[];
      sent := [];
    }

    /** `update_user`: one partial UPDATE of the user's row. */
    method UpdateUser(id: int, patch: Patch)
      modifies this
      ensures users == Updated(old(users), id, patch) && sent == old(sent)
    {
      users := Updated(users, id, patch);
    }

    /** `send_msg`: the message goes out in consecutive 4000-character parts. */
    method SendMsg(peer: int, message: string, keyboard: Keyboard)
      modifies this
      ensures users == old(users)
      ensures sent == old(sent) + Deliver(peer, message, keyboard)
    {
      var out := Deliver(peer, message, keyboard);
      var i := 0;
      ghost var k := 0;
      while i < |message|
        invariant 0 <= k <= |out| && i == k * MaxPart
        invariant k < |out| <==> i < |message|
        invariant users == old(users)
        invariant sent == old(sent) + out[..k]
        decreases |message| - i
      {
        var part := message[i .. Min(i + MaxPart, |message|)];
        assert out[k] == Send(peer, part, keyboard);
        sent := sent + [Send(peer, part, keyboard)];
        assert out[..k + 1] == out[..k] + [out[k]];
        i := i + MaxPart;
        k := k + 1;
        PartIndexRange(|message|, k);
      }
      assert out[..k] == out;
    }

    /** The error-901 branch of `send_msg` (the peer refuses messages from the
        bot): the subscription is dropped. */
    method OnSendError(peer: int, code: int)
      modifies this
      ensures code == 901 ==> users == Updated(old(users), peer, NoSubscription)
      ensures code != 901 ==> users == old(users)
      ensures sent == old(sent)
    {
      if code == 901 {
        UpdateUser(peer, NoSubscription);
      }
    }

    // -------------------------------------------------------------------
    // Schedule menu

    /** What send_schedule_menu sends: onboarding to a user who needs it,
        the schedule menu to anyone else. */
    function MenuAnswer(id: int, row: Row): seq<Send>
    {
      if NeedsOnboarding(row) then Deliver(id, strings(Welcome), ChooseRoleMenu)
      else Deliver(id, strings(ChooseMenu), ScheduleMenu)
    }

    method SendScheduleMenu(u: User) returns (r: Ret)
      modifies this
      ensures sent == old(sent) + MenuAnswer(u.id, u.row)
      ensures users == (if NeedsOnboarding(u.row) then Updated(old(users), u.id, AwaitRole) else old(users))
      ensures r == Returned(u)
      ensures Confined(old(users), users, u.id) && SentOnlyTo(old(sent), sent, u.id)
    {
      if NeedsOnboarding(u.row) {
        r := SendChoiceGroup(u);
      } else {
        SendMsg(u.id, strings(ChooseMenu), ScheduleMenu);
        r := Returned(u);
      }
    }

    method SendSchedule(u: User, p: Payload, env: Env) returns (r: Ret)
      requires ValidClock(env.clock)
      modifies this
      ensures var answer := env.formatSchedule(ScheduleQuery(u.row, p, env.clock));
        users == old(users)
        && (answer.None? ==>
              sent == old(sent) + Deliver(u.id, strings(CantGetSchedule), NoKeyboard) && r == ReturnedNone)
        && (answer.Some? ==>
              sent == old(sent) + Deliver(u.id, answer.value, NoKeyboard) && r == Returned(u))
      ensures Confined(old(users), users, u.id) && SentOnlyTo(old(sent), sent, u.id)
    {
      var startDay := Int(0);
      var days := Int(1);
      if |p| > 0 {
        startDay := PayloadGet(p, "start_day", Int(0));
        days := PayloadGet(p, "days", Int(1));
      }
      startDay := ResolveStartDay(startDay, IsoWeekday(env.clock.today));
      var q := Query(Get(u.row, CurrentId), Get(u.row, Role), startDay, Some(days),
                     Get(u.row, ShowGroups), Get(u.row, ShowLocation));
      var schedule := env.formatSchedule(q);
      if schedule.None? {
        SendMsg(u.id, strings(CantGetSchedule), NoKeyboard);
        r := ReturnedNone;
      } else {
        SendMsg(u.id, schedule.value, NoKeyboard);
        r := Returned(u);
      }
    }

    method SendOneDaySchedule(u: User) returns (r: Ret)
      modifies this
      ensures users == Updated(old(users), u.id, AwaitDate)
      ensures sent == old(sent) + Deliver(u.id, strings(WriteDate), EmptyKeyboard)
      ensures r == Returned(u)
      ensures Confined(old(users), users, u.id) && SentOnlyTo(old(sent), sent, u.id)
    {
      UpdateUser(u.id, AwaitDate);
      SendMsg(u.id, strings(WriteDate), EmptyKeyboard);
      r := Returned(u);
    }

    /** The reply to the one-day prompt. The prompt is cleared first, whatever
        the text; a text that is no date gets the incorrect-date reply and no
        schedule is asked for. */
    method SendDayScheduleText(u: User, text: string, env: Env) returns (r: Ret)
      requires ValidClock(env.clock)
      modifies this
      ensures users == Updated(old(users), u.id, DateServed)
      ensures ParseTypedDate(text, env.clock.today.year).None? ==>
        sent == old(sent) + Deliver(u.id, strings(IncorrectDate), ScheduleMenu)
      ensures ParseTypedDate(text, env.clock.today.year).Some? ==>
        var d := ParseTypedDate(text, env.clock.today.year).value;
        var answer := env.formatSchedule(
          Query(Get(u.row, CurrentId), Get(u.row, Role), Int(DaysFromNow(d, env.clock)), None,
                Get(u.row, ShowGroups), Get(u.row, ShowLocation)));
        (answer.None? ==>
          sent == old(sent) + Deliver(u.id, strings(CantFindScheduleByDate(FormatDate(d))), ScheduleMenu))
        && (answer.Some? ==>
          sent == old(sent) + Deliver(u.id, answer.value, InlineDate(d))
                  + Deliver(u.id, strings(ChooseMenu), ScheduleMenu))
      ensures r == Returned(u)
      ensures Confined(old(users), users, u.id) && SentOnlyTo(old(sent), sent, u.id)
    {
      UpdateUser(u.id, DateServed);
      var date := ParseTypedDate(text, env.clock.today.year);
      if date.None? {
        SendMsg(u.id, strings(IncorrectDate), ScheduleMenu);
        return Returned(u);
      }
      var d := date.value;
      var q := Query(Get(u.row, CurrentId), Get(u.row, Role), Int(DaysFromNow(d, env.clock)), None,
                     Get(u.row, ShowGroups), Get(u.row, ShowLocation));
      var schedule := env.formatSchedule(q);
      if schedule.None? {
        SendMsg(u.id, strings(CantFindScheduleByDate(FormatDate(d))), ScheduleMenu);
        return Returned(u);
      }
      SendMsg(u.id, schedule.value, InlineDate(d));
      SendMsg(u.id, strings(ChooseMenu), ScheduleMenu);
      r := Returned(u);
    }

    method SendChoiceGroup(u: User) returns (r: Ret)
      modifies this
      ensures users == Updated(old(users), u.id, AwaitRole)
      ensures sent == old(sent) + Deliver(u.id, strings(Welcome), ChooseRoleMenu)
      ensures r == Returned(u)
      ensures Confined(old(users), users, u.id) && SentOnlyTo(old(sent), sent, u.id)
    {
      UpdateUser(u.id, AwaitRole);
      r := ChangeRole(u);
    }

    // -------------------------------------------------------------------
    // Group selection and group search

    /** The group typed in reply to the group prompt. On success the record
        holds the normalised name and the service's id with both display
        flags off; on any error only `current_name` changes, back to the
        pending marker. The user is returned on success and on "Not found". */
    method SendCheckGroup(u: User, text: string, env: Env) returns (r: Ret)
      modifies this
      ensures var name := NormaliseGroupName(text);
        var g := env.getGroup(name);
        (!g.hasError ==>
          users == Updated(old(users), u.id,
            GroupSet(name, g.data))
          && sent == old(sent) + Deliver(u.id, strings(GroupChangedFor(name)), ScheduleMenu)
          && r == Returned(u))
        && (g.hasError ==>
          users == Updated(old(users), u.id, map[CurrentName := Pending])
          && (g.errorText == Str("Timeout error") ==>
                sent == old(sent) + Deliver(u.id, strings(TimeoutError), BackToChoosingRole)
                && r == ReturnedNone)
          && (g.errorText == Str("Not found") ==>
                sent == old(sent) + Deliver(u.id, strings(GroupNotFound(name)), BackToChoosingRole)
                && r == Returned(u))
          && (g.errorText !in {Str("Timeout error"), Str("Not found")} ==>
                sent == old(sent) && r == ReturnedNone))
      ensures Confined(old(users), users, u.id) && SentOnlyTo(old(sent), sent, u.id)
    {
      var name := NormaliseGroupName(text);
      var g := env.getGroup(name);
      if !g.hasError {
        UpdateUser(u.id, GroupSet(name, g.data));
        SendMsg(u.id, strings(GroupChangedFor(name)), ScheduleMenu);
        r := Returned(u);
      } else {
        UpdateUser(u.id, map[CurrentName := Pending]);
        if g.errorText == Str("Timeout error") {
          SendMsg(u.id, strings(TimeoutError), BackToChoosingRole);
          r := ReturnedNone;
        } else if g.errorText == Str("Not found") {
          SendMsg(u.id, strings(GroupNotFound(name)), BackToChoosingRole);
          r := Returned(u);
        } else {
          r := ReturnedNone;
        }
      }
    }

    /** The group typed in reply to the search prompt: the found columns are
        set on success; on an error `found_name` is cleared, which ends the
        search. */
    method SearchCheckGroup(u: User, text: string, env: Env) returns (r: Ret)
      modifies this
      ensures var name := NormaliseGroupName(text);
        var g := env.getGroup(name);
        (!g.hasError ==>
          users == Updated(old(users), u.id, Found(g.data, Str(name)))
          && sent == old(sent) + Deliver(u.id, strings(GroupFound(name)), FindScheduleMenu)
          && r == Returned(u))
        && (g.hasError ==>
          users == Updated(old(users), u.id, map[FoundName := Null])
          && (g.errorText == Str("Timeout error") ==>
                sent == old(sent) + Deliver(u.id, strings(TimeoutError), ScheduleMenu)
                && r == ReturnedNone)
          && (g.errorText == Str("Not found") ==>
                sent == old(sent) + Deliver(u.id, strings(GroupNotFound(name)), ScheduleMenu)
                && r == Returned(u))
          && (g.errorText !in {Str("Timeout error"), Str("Not found")} ==>
                sent == old(sent) && r == ReturnedNone))
      ensures Confined(old(users), users, u.id) && SentOnlyTo(old(sent), sent, u.id)
    {
      var name := NormaliseGroupName(text);
      var g := env.getGroup(name);
      if !g.hasError {
        UpdateUser(u.id, Found(g.data, Str(name)));
        SendMsg(u.id, strings(GroupFound(name)), FindScheduleMenu);
        r := Returned(u);
      } else {
        UpdateUser(u.id, map[FoundName := Null]);
        if g.errorText == Str("Timeout error") {
          SendMsg(u.id, strings(TimeoutError), ScheduleMenu);
          r := ReturnedNone;
        } else if g.errorText == Str("Not found") {
          SendMsg(u.id, strings(GroupNotFound(name)), ScheduleMenu);
          r := Returned(u);
        } else {
          r := ReturnedNone;
        }
      }
    }

    /** Opens a search for a teacher or a group, as the payload's role says:
        the found columns are primed with the pending marker and id "0". */
    method SendSearch(u: User, p: Payload) returns (r: Ret)
      modifies this
      ensures "role" !in p ==> users == old(users) && sent == old(sent) && r == Raised
      ensures "role" in p && p["role"] == Str(ROLE_TEACHER) ==>
        users == Updated(old(users), u.id,
          StartSearch(ROLE_TEACHER))
        && sent == old(sent) + Deliver(u.id, strings(WriteTeacher), EmptyKeyboard)
        && r == Returned(u)
      ensures "role" in p && p["role"] == Str(ROLE_STUDENT) ==>
        users == Updated(old(users), u.id,
          StartSearch(ROLE_STUDENT))
        && sent == old(sent) + Deliver(u.id, strings(WriteGroup), EmptyKeyboard)
        && r == Returned(u)
      ensures "role" in p && p["role"] !in {Str(ROLE_TEACHER), Str(ROLE_STUDENT)} ==>
        users == old(users) && sent == old(sent) && r == Returned(u)
      ensures Confined(old(users), users, u.id) && SentOnlyTo(old(sent), sent, u.id)
    {
      if "role" !in p {
        return Raised;
      }
      var foundType, message;
      if p["role"] == Str(ROLE_TEACHER) {
        foundType, message := ROLE_TEACHER, WriteTeacher;
      } else if p["role"] == Str(ROLE_STUDENT) {
        foundType, message := ROLE_STUDENT, WriteGroup;
      } else {
        return Returned(u);
      }
      UpdateUser(u.id, StartSearch(foundType));
      SendMsg(u.id, strings(message), EmptyKeyboard);
      r := Returned(u);
    }

    /** The legacy teacher-search button: a search with the role forced to teacher. */
    method SendSearchTeacher(u: User, p: Payload) returns (r: Ret)
      modifies this
      ensures users == Updated(old(users), u.id,
        StartSearch(ROLE_TEACHER))
      ensures sent == old(sent) + Deliver(u.id, strings(WriteTeacher), EmptyKeyboard)
      ensures r == Returned(u)
      ensures Confined(old(users), users, u.id) && SentOnlyTo(old(sent), sent, u.id)
    {
      r := SendSearch(u, p["role" := Str(ROLE_TEACHER)]);
    }

    /** The legacy group-search button: a search with the role forced to student. */
    method SearchGroup(u: User, p: Payload) returns (r: Ret)
      modifies this
      ensures users == Updated(old(users), u.id,
        StartSearch(ROLE_STUDENT))
      ensures sent == old(sent) + Deliver(u.id, strings(WriteGroup), EmptyKeyboard)
      ensures r == Returned(u)
      ensures Confined(old(users), users, u.id) && SentOnlyTo(old(sent), sent, u.id)
    {
      r := SendSearch(u, p["role" := Str(ROLE_STUDENT)]);
    }

    // -------------------------------------------------------------------
    // Teachers

    /** The teacher name typed in reply to the search prompt, by the number
        of matches: an error changes no column; one match becomes the found
        teacher; several are offered as a list and the user is returned; none
        ends the search and returns None. */
    method SearchTeacherSchedule(u: User, text: string, env: Env) returns (r: Ret)
      modifies this
      ensures var t := env.getTeacher(text);
        var head := old(sent) + Deliver(u.id, strings(SearchingForTeacher), NoKeyboard);
        (t.hasError ==>
          users == old(users)
          && sent == head + Deliver(u.id, strings(TimeoutError), ScheduleMenu)
          && r == ReturnedNone)
        && (!t.hasError && |t.matches| == 1 ==>
          users == Updated(old(users), u.id,
            Found(t.matches[0].id, t.matches[0].name))
          && sent == head + Deliver(u.id,
               strings(FoundTeacher(Show(t.matches[0].name))) + "\n" + strings(ChooseTimedelta),
               FindScheduleMenu)
          && r == ReturnedNone)
        && (!t.hasError && |t.matches| >= 2 ==>
          users == old(users)
          && sent == head + Deliver(u.id, strings(ChooseCurrentTeacher), FoundList(t.matches, false))
          && r == Returned(u))
        && (!t.hasError && |t.matches| == 0 ==>
          users == Updated(old(users), u.id, EndSearch)
          && sent == head + Deliver(u.id, strings(TeacherNotFound), ScheduleMenu)
          && r == ReturnedNone)
      ensures Confined(old(users), users, u.id) && SentOnlyTo(old(sent), sent, u.id)
    {
      SendMsg(u.id, strings(SearchingForTeacher), NoKeyboard);
      var t := env.getTeacher(text);
      if t.hasError {
        SendMsg(u.id, strings(TimeoutError), ScheduleMenu);
        r := ReturnedNone;
      } else if |t.matches| > 0 {
        if |t.matches| == 1 {
          var m := t.matches[0];
          UpdateUser(u.id, Found(m.id, m.name));
          SendMsg(u.id, strings(FoundTeacher(Show(m.name))) + "\n" + strings(ChooseTimedelta),
                  FindScheduleMenu);
          r := ReturnedNone;
        } else {
          SendMsg(u.id, strings(ChooseCurrentTeacher), FoundList(t.matches, false));
          r := Returned(u);
        }
      } else {
        UpdateUser(u.id, EndSearch);
        SendMsg(u.id, strings(TeacherNotFound), ScheduleMenu);
        r := ReturnedNone;
      }
    }

    /** The teacher name typed in reply to the teacher prompt of onboarding:
        one match becomes the user's own teacher with groups and locations
        shown; no other outcome changes the record. */
    method SearchTeacherToSet(u: User, text: string, env: Env) returns (r: Ret)
      modifies this
      ensures var t := env.getTeacher(text);
        (t.hasError ==>
          users == old(users)
          && sent == old(sent) + Deliver(u.id, strings(TimeoutError), BackToChoosingRole)
          && r == ReturnedNone)
        && (!t.hasError && |t.matches| == 1 ==>
          users == Updated(old(users), u.id,
            TeacherSet(t.matches[0].id, t.matches[0].name))
          && sent == old(sent) + Deliver(u.id, strings(FoundTeacher(Show(t.matches[0].name))), ScheduleMenu)
          && r == ReturnedNone)
        && (!t.hasError && |t.matches| >= 2 ==>
          users == old(users)
          && sent == old(sent) + Deliver(u.id, strings(ChooseCurrentTeacher), FoundList(t.matches, true))
          && r == Returned(u))
        && (!t.hasError && |t.matches| == 0 ==>
          users == old(users)
          && sent == old(sent) + Deliver(u.id, strings(TeacherNotFound), BackToChoosingRole)
          && r == ReturnedNone)
      ensures Confined(old(users), users, u.id) && SentOnlyTo(old(sent), sent, u.id)
    {
      var t := env.getTeacher(text);
      if t.hasError {
        SendMsg(u.id, strings(TimeoutError), BackToChoosingRole);
        r := ReturnedNone;
      } else if |t.matches| > 0 {
        if |t.matches| == 1 {
          var m := t.matches[0];
          UpdateUser(u.id, TeacherSet(m.id, m.name));
          SendMsg(u.id, strings(FoundTeacher(Show(m.name))), ScheduleMenu);
          r := ReturnedNone;
        } else {
          SendMsg(u.id, strings(ChooseCurrentTeacher), FoundList(t.matches, true));
          r := Returned(u);
        }
      } else {
        SendMsg(u.id, strings(TeacherNotFound), BackToChoosingRole);
        r := ReturnedNone;
      }
    }

    /** A teacher picked from the onboarding list becomes the user's own. */
    method SetTeacher(u: User, p: Payload) returns (r: Ret)
      modifies this
      ensures "found_id" !in p || "found_name" !in p ==>
        users == old(users) && sent == old(sent) && r == Raised
      ensures "found_id" in p && "found_name" in p ==>
        users == Updated(old(users), u.id,
          TeacherSet(p["found_id"], p["found_name"]))
        && sent == old(sent) + Deliver(u.id, strings(FoundTeacher(Show(p["found_name"]))), ScheduleMenu)
        && r == ReturnedNone
      ensures Confined(old(users), users, u.id) && SentOnlyTo(old(sent), sent, u.id)
    {
      if "found_id" !in p || "found_name" !in p {
        return Raised;
      }
      UpdateUser(u.id, TeacherSet(p["found_id"], p["found_name"]));
      SendMsg(u.id, strings(FoundTeacher(Show(p["found_name"]))), ScheduleMenu);
      r := ReturnedNone;
    }

    /** A teacher picked from the search list becomes the found subject; a
        payload without both keys ends the search. */
    method SendTeacher(u: User, p: Payload) returns (r: Ret)
      modifies this
      ensures "found_id" in p && "found_name" in p ==>
        users == Updated(old(users), u.id, Found(p["found_id"], p["found_name"]))
        && sent == old(sent) + Deliver(u.id, strings(ChooseTimedelta), FindScheduleMenu)
      ensures "found_id" !in p || "found_name" !in p ==>
        users == Updated(old(users), u.id, EndSearch)
        && sent == old(sent) + Deliver(u.id, strings(CantFindUser), ScheduleMenu)
      ensures r == ReturnedNone
      ensures Confined(old(users), users, u.id) && SentOnlyTo(old(sent), sent, u.id)
    {
      if "found_id" in p && "found_name" in p {
        UpdateUser(u.id, Found(p["found_id"], p["found_name"]));
        SendMsg(u.id, strings(ChooseTimedelta), FindScheduleMenu);
      } else {
        UpdateUser(u.id, EndSearch);
        SendMsg(u.id, strings(CantFindUser), ScheduleMenu);
      }
      r := ReturnedNone;
    }

    /** The found subject's schedule; the search ends whatever the answer,
        and an empty or missing schedule is replaced by the apology. */
    method SendTeacherSchedule(u: User, p: Payload, env: Env) returns (r: Ret)
      requires ValidClock(env.clock)
      modifies this
      ensures var answer := env.formatSchedule(TeacherQuery(u.row, p, env.clock));
        users == Updated(old(users), u.id, EndSearch)
        && (answer.Some? && answer.value != "" ==>
              sent == old(sent) + Deliver(u.id, answer.value, ScheduleMenu))
        && (answer.None? || answer.value == "" ==>
              sent == old(sent) + Deliver(u.id, strings(CantGetSchedule), ScheduleMenu))
      ensures r == Returned(u)
      ensures Confined(old(users), users, u.id) && SentOnlyTo(old(sent), sent, u.id)
    {
      var startDay := PayloadGet(p, "start_day", Int(0));
      var days := PayloadGet(p, "days", Int(1));
      startDay := ResolveStartDay(startDay, IsoWeekday(env.clock.today));
      var q := Query(Get(u.row, FoundId), Get(u.row, FoundType), startDay, Some(days),
                     Flag(true), Flag(true));
      var schedule := env.formatSchedule(q);
      UpdateUser(u.id, EndSearch);
      var text := if schedule.Some? && schedule.value != "" then schedule.value
                  else strings(CantGetSchedule);
      SendMsg(u.id, text, ScheduleMenu);
      r := Returned(u);
    }

    // -------------------------------------------------------------------
    // Settings

    /** Flips the display flag the payload's type names, in the record and
        in the returned copy alike; an unknown type changes nothing and
        sends the error text. */
    method ShowGroupsOrLocation(u: User, p: Payload) returns (r: Ret)
      modifies this
      ensures "type" !in p ==> users == old(users) && sent == old(sent) && r == Raised
      ensures "type" in p && p["type"] == Str(SETTINGS_TYPE_GROUPS) ==>
        var shown := !Truthy(Get(u.row, ShowGroups));
        users == Updated(old(users), u.id, Flipped(u.row, ShowGroups))
        && r == Returned(User(u.id, Merge(u.row, Flipped(u.row, ShowGroups))))
        && sent == old(sent) + Deliver(u.id, ToggleText(true, shown), SettingsMenu)
      ensures "type" in p && p["type"] == Str(SETTINGS_TYPE_LOCATION) ==>
        var shown := !Truthy(Get(u.row, ShowLocation));
        users == Updated(old(users), u.id, Flipped(u.row, ShowLocation))
        && r == Returned(User(u.id, Merge(u.row, Flipped(u.row, ShowLocation))))
        && sent == old(sent) + Deliver(u.id, ToggleText(false, shown), SettingsMenu)
      ensures "type" in p && p["type"] !in {Str(SETTINGS_TYPE_GROUPS), Str(SETTINGS_TYPE_LOCATION)} ==>
        users == old(users) && r == Returned(u)
        && sent == old(sent) + Deliver(u.id, strings(ErrorText), SettingsMenu)
      ensures Confined(old(users), users, u.id) && SentOnlyTo(old(sent), sent, u.id)
    {
      if "type" !in p {
        return Raised;
      }
      var user := u;
      var message;
      if p["type"] == Str(SETTINGS_TYPE_GROUPS) {
        var shown := !Truthy(Get(u.row, ShowGroups));
        UpdateUser(u.id, Flipped(u.row, ShowGroups));
        user := User(u.id, Merge(u.row, Flipped(u.row, ShowGroups)));
        message := ToggleText(true, shown);
      } else if p["type"] == Str(SETTINGS_TYPE_LOCATION) {
        var shown := !Truthy(Get(u.row, ShowLocation));
        UpdateUser(u.id, Flipped(u.row, ShowLocation));
        user := User(u.id, Merge(u.row, Flipped(u.row, ShowLocation)));
        message := ToggleText(false, shown);
      } else {
        message := strings(ErrorText);
      }
      SendMsg(u.id, message, SettingsMenu);
      r := Returned(user);
    }

    method SendSettingsMenu(u: User) returns (r: Ret)
      modifies this
      ensures users == old(users)
      ensures sent == old(sent) + Deliver(u.id, strings(WhatToSet), SettingsMenu)
      ensures r == Returned(u)
      ensures Confined(old(users), users, u.id) && SentOnlyTo(old(sent), sent, u.id)
    {
      SendMsg(u.id, strings(WhatToSet), SettingsMenu);
      r := Returned(u);
    }

    // -------------------------------------------------------------------
    // Subscription

    method UnsubscribeSchedule(u: User) returns (r: Ret)
      modifies this
      ensures users == Updated(old(users), u.id, NoSubscription)
      ensures sent == old(sent) + Deliver(u.id, UnsubscribedText, ScheduleMenu)
      ensures r == Returned(u)
      ensures Confined(old(users), users, u.id) && SentOnlyTo(old(sent), sent, u.id)
    {
      UpdateUser(u.id, NoSubscription);
      SendMsg(u.id, UnsubscribedText, ScheduleMenu);
      r := Returned(u);
    }

    /** Starts the subscription dialogue: all three columns await input. */
    method SubscribeSchedule(u: User) returns (r: Ret)
      modifies this
      ensures users == Updated(old(users), u.id,
        AwaitSubscription)
      ensures sent == old(sent) + Deliver(u.id, SubscribeAsk, SubscribeStartMenu)
      ensures r == Returned(u)
      ensures Confined(old(users), users, u.id) && SentOnlyTo(old(sent), sent, u.id)
    {
      UpdateUser(u.id, AwaitSubscription);
      SendMsg(u.id, SubscribeAsk, SubscribeStartMenu);
      r := Returned(u);
    }

    /** The time typed in reply to the subscription prompt: a valid `%H:%M`
        is stored zero-padded together with the user's current name, and
        `subscription_days` is left awaiting the period; anything else
        drops the subscription. */
    method UpdateSubscribeTime(u: User, text: string) returns (r: Ret)
      modifies this
      ensures NormaliseTime(text).None? ==>
        users == Updated(old(users), u.id, NoSubscription)
        && sent == old(sent) + Deliver(u.id, strings(IncorrectDateFormat), ScheduleMenu)
      ensures NormaliseTime(text).Some? ==>
        var time := NormaliseTime(text).value;
        users == Updated(old(users), u.id,
          TimeChosen(time, Get(u.row, CurrentName)))
        && sent == old(sent) + Deliver(u.id,
             SubscriptionTimeText(Get(u.row, Role), Get(u.row, CurrentName), time), SubscribeDayMenu)
      ensures r == Returned(u)
      ensures Confined(old(users), users, u.id) && SentOnlyTo(old(sent), sent, u.id)
    {
      var time := NormaliseTime(text);
      if time.None? {
        UpdateUser(u.id, NoSubscription);
        SendMsg(u.id, strings(IncorrectDateFormat), ScheduleMenu);
        return Returned(u);
      }
      UpdateUser(u.id, TimeChosen(time.value, Get(u.row, CurrentName)));
      SendMsg(u.id, SubscriptionTimeText(Get(u.row, Role), Get(u.row, CurrentName), time.value),
              SubscribeDayMenu);
      r := Returned(u);
    }

    /** The period chosen last in the subscription dialogue: one of the five
        periods completes the subscription, any other drops it. */
    method UpdateSubscribeDay(u: User, p: Payload) returns (r: Ret)
      modifies this
      ensures "type" !in p ==> users == old(users) && sent == old(sent) && r == Raised
      ensures "type" in p && PeriodDay(p["type"]).None? ==>
        users == Updated(old(users), u.id, NoSubscription)
        && sent == old(sent) + Deliver(u.id, SubscribeFailed, ScheduleMenu)
        && r == ReturnedNone
      ensures "type" in p && PeriodDay(p["type"]).Some? ==>
        users == Updated(old(users), u.id, map[SubscriptionDays := p["type"]])
        && sent == old(sent) + Deliver(u.id,
             SubscribedText(Get(u.row, Role), Get(u.row, SubscriptionGroup),
                            Get(u.row, SubscriptionTime), PeriodDay(p["type"]).value),
             ScheduleMenu)
        && r == Returned(u)
      ensures Confined(old(users), users, u.id) && SentOnlyTo(old(sent), sent, u.id)
    {
      if "type" !in p {
        return Raised;
      }
      var day := PeriodDay(p["type"]);
      if day.None? {
        UpdateUser(u.id, NoSubscription);
        SendMsg(u.id, SubscribeFailed, ScheduleMenu);
        return ReturnedNone;
      }
      UpdateUser(u.id, map[SubscriptionDays := p["type"]]);
      SendMsg(u.id, SubscribedText(Get(u.row, Role), Get(u.row, SubscriptionGroup),
                                   Get(u.row, SubscriptionTime), day.value), ScheduleMenu);
      r := Returned(u);
    }

    // -------------------------------------------------------------------
    // Calendar, roles, search menu, cancel, debug, legacy records

    method ChoseCalendar(u: User) returns (r: Ret)
      modifies this
      ensures users == old(users) && sent == old(sent) + Deliver(u.id, CalendarFace, NoKeyboard)
      ensures r == Returned(u)
      ensures Confined(old(users), users, u.id) && SentOnlyTo(old(sent), sent, u.id)
    {
      SendMsg(u.id, CalendarFace, NoKeyboard);
      r := Returned(u);
    }

    /** A link to the web calendar of the user's group or teacher. */
    method CalendarLink(u: User) returns (r: Ret)
      modifies this
      ensures users == old(users)
      ensures sent == old(sent) + Deliver(u.id, CalendarSite + urlencode(
        [("name", Show(Get(u.row, CurrentName))),
         ("type", if Get(u.row, Role) == Str(ROLE_STUDENT) then "group" else "person"),
         ("id", Show(Get(u.row, CurrentId)))]), NoKeyboard)
      ensures r == ReturnedNone
      ensures Confined(old(users), users, u.id) && SentOnlyTo(old(sent), sent, u.id)
    {
      var query := urlencode([("name", Show(Get(u.row, CurrentName))),
                              ("type", if Get(u.row, Role) == Str(ROLE_STUDENT) then "group" else "person"),
                              ("id", Show(Get(u.row, CurrentId)))]);
      SendMsg(u.id, CalendarSite + query, NoKeyboard);
      r := ReturnedNone;
    }

    method ChangeRole(u: User) returns (r: Ret)
      modifies this
      ensures users == old(users) && sent == old(sent) + Deliver(u.id, strings(Welcome), ChooseRoleMenu)
      ensures r == Returned(u)
      ensures Confined(old(users), users, u.id) && SentOnlyTo(old(sent), sent, u.id)
    {
      SendMsg(u.id, strings(Welcome), ChooseRoleMenu);
      r := Returned(u);
    }

    /** The role button of onboarding: the example for that role is sent,
        then the record awaits the group or teacher name with the payload's
        role stored as given. */
    method SetRole(u: User, p: Payload) returns (r: Ret)
      modifies this
      ensures "role" !in p ==> users == old(users) && sent == old(sent) && r == Raised
      ensures "role" in p ==>
        users == Updated(old(users), u.id, RoleChosen(p["role"]))
        && sent == old(sent) + Deliver(u.id,
             strings(if p["role"] == Str(ROLE_STUDENT) then GroupExample else TeacherExample),
             BackToChoosingRole)
        && r == Returned(u)
      ensures Confined(old(users), users, u.id) && SentOnlyTo(old(sent), sent, u.id)
    {
      if "role" !in p {
        return Raised;
      }
      var role := p["role"];
      var message := if role == Str(ROLE_STUDENT) then GroupExample else TeacherExample;
      SendMsg(u.id, strings(message), BackToChoosingRole);
      UpdateUser(u.id, RoleChosen(role));
      r := Returned(u);
    }

    method Search(u: User) returns (r: Ret)
      modifies this
      ensures users == old(users) && sent == old(sent) + Deliver(u.id, strings(WhatToFind), SearchMenu)
      ensures r == Returned(u)
      ensures Confined(old(users), users, u.id) && SentOnlyTo(old(sent), sent, u.id)
    {
      SendMsg(u.id, strings(WhatToFind), SearchMenu);
      r := Returned(u);
    }

    /** Rolls back whatever dialogue is pending (as `User.cancel_changes`
        decides), then shows the schedule menu for the record as loaded. */
    method Cancel(u: User, env: Env) returns (r: Ret)
      modifies this
      ensures var rolled := match env.cancelChanges(u)
          case Some(patch) => Updated(old(users), u.id, patch)
          case None => old(users);
        (NeedsOnboarding(u.row) ==>
          users == Updated(rolled, u.id, AwaitRole)
          && sent == old(sent) + Deliver(u.id, strings(Welcome), ChooseRoleMenu))
        && (!NeedsOnboarding(u.row) ==>
          users == rolled && sent == old(sent) + Deliver(u.id, strings(ChooseMenu), ScheduleMenu))
      ensures r == ReturnedNone
      ensures Confined(old(users), users, u.id) && SentOnlyTo(old(sent), sent, u.id)
    {
      var rollback := env.cancelChanges(u);
      if rollback.Some? {
        UpdateUser(u.id, rollback.value);
      }
      var _ := SendScheduleMenu(u);
      r := ReturnedNone;
    }

    method DebugMessage(u: User) returns (r: Ret)
      modifies this
      ensures users == old(users) && sent == old(sent) + Deliver(u.id, showUser(u), NoKeyboard)
      ensures r == ReturnedNone
      ensures Confined(old(users), users, u.id) && SentOnlyTo(old(sent), sent, u.id)
    {
      SendMsg(u.id, showUser(u), NoKeyboard);
      r := ReturnedNone;
    }

    /** A record still marked `update == "2"` is sent through onboarding
        again: its name and role are cleared, the marker becomes "3", and
        the group prompt follows. */
    method UserUpdate2(u: User) returns (r: Ret)
      modifies this
      ensures users == Updated(
        Updated(old(users), u.id, Renew),
        u.id, AwaitRole)
      ensures sent == old(sent) + Deliver(u.id, strings(Welcome), ChooseRoleMenu)
      ensures r == ReturnedNone
      ensures Confined(old(users), users, u.id) && SentOnlyTo(old(sent), sent, u.id)
    {
      UpdateUser(u.id, Renew);
      var renewed := User(u.id, u.row[CurrentName := Null]);
      var _ := SendScheduleMenu(renewed);
      r := ReturnedNone;
    }

    // -------------------------------------------------------------------
    // Dispatch

    /** `getattr(self, menu)(user, payload=payload)` */
    method RunAction(u: User, a: Action, p: Payload, env: Env) returns (r: Ret)
      requires ValidClock(env.clock)
      modifies this
      ensures Confined(old(users), users, u.id) && SentOnlyTo(old(sent), sent, u.id)
    {
      match a
      case SendScheduleMenu => r := SendScheduleMenu(u);
      case SendSchedule => r := SendSchedule(u, p, env);
      case SendOneDaySchedule => r := SendOneDaySchedule(u);
      case SendChoiceGroup => r := SendChoiceGroup(u);
      case SendSearch => r := SendSearch(u, p);
      case SendSearchTeacher => r := SendSearchTeacher(u, p);
      case SearchGroup => r := SearchGroup(u, p);
      case SetTeacher => r := SetTeacher(u, p);
      case SendTeacher => r := SendTeacher(u, p);
      case SendTeacherSchedule => r := SendTeacherSchedule(u, p, env);
      case ShowGroupsOrLocation => r := ShowGroupsOrLocation(u, p);
      case SendSettingsMenu => r := SendSettingsMenu(u);
      case UnsubscribeSchedule => r := UnsubscribeSchedule(u);
      case SubscribeSchedule => r := SubscribeSchedule(u);
      case UpdateSubscribeDay => r := UpdateSubscribeDay(u, p);
      case ChoseCalendar => r := ChoseCalendar(u);
      case CalendarLink => r := CalendarLink(u);
      case ChangeRole => r := ChangeRole(u);
      case SetRole => r := SetRole(u, p);
      case Search => r := Search(u);
      case Cancel => r := Cancel(u, env);
      case DebugMessage => r := DebugMessage(u);
    }

    /** One inbound event. When the store cannot be reached the apology is
        sent and the event goes no further. Otherwise the sender's record is
        loaded, created empty for a new peer, and the guard chain picks the
        handler that runs. Whatever runs, only the sender's record changes
        and every message goes to the sender. */
    method HandleNewMessage(ev: Event, env: Env, storeUp: bool) returns (route: Option<Route>)
      requires ValidClock(env.clock)
      modifies this
      ensures !storeUp ==>
        route == None && users == old(users)
        && sent == old(sent) + Deliver(ev.peer, Apology, NoKeyboard)
      ensures storeUp ==>
        route == Some(Classify(ev.text, ev.payload, LoadedRow(old(users), ev.peer)))
        && users.Keys == old(users).Keys + {ev.peer}
      ensures forall k :: k in old(users) && k != ev.peer ==> k in users && users[k] == old(users)[k]
      ensures SentOnlyTo(old(sent), sent, ev.peer)
      ensures storeUp && ShowsMenu(route.value) ==>
        sent == old(sent) + MenuAnswer(ev.peer, LoadedRow(old(users), ev.peer))
    {
      if !storeUp {
        SendMsg(ev.peer, Apology, NoKeyboard);
        return None;
      }
      if ev.peer !in users {
        users := users[ev.peer := map[]];
      }
      var u := User(ev.peer, users[ev.peer]);
      route := Some(Classify(ev.text, ev.payload, u.row));
      var _ := Respond(u, route.value, Lower(ev.text), ev.payload, env);
    }

    /** The handler the guard chain picked, run on the lowered message text
        or on the payload. */
    method Respond(u: User, route: Route, message: string, p: Payload, env: Env) returns (outcome: Ret)
      requires ValidClock(env.clock)
      modifies this
      ensures Confined(old(users), users, u.id) && SentOnlyTo(old(sent), sent, u.id)
      ensures ShowsMenu(route) ==>
        sent == old(sent) + MenuAnswer(u.id, u.row)
        && users == (if NeedsOnboarding(u.row) then Updated(old(users), u.id, AwaitRole) else old(users))
      ensures route == Reonboard ==>
        users == Updated(Updated(old(users), u.id, Renew), u.id, AwaitRole)
        && sent == old(sent) + Deliver(u.id, strings(Welcome), ChooseRoleMenu)
      ensures route == ButtonsOnly ==>
        users == old(users) && sent == old(sent) + Deliver(u.id, ButtonsOnlyText, NoKeyboard)
      ensures route == CalendarEmoji ==>
        users == old(users) && sent == old(sent) + Deliver(u.id, CalendarFace, NoKeyboard)
      ensures route == DebugText ==>
        users == old(users) && sent == old(sent) + Deliver(u.id, showUser(u), NoKeyboard)
    {
      match route
      case Start => outcome := SendScheduleMenu(u);
      case Reonboard => outcome := UserUpdate2(u);
      case Handler(a) => outcome := RunAction(u, a, p, env);
      case UnknownMenu => outcome := SendScheduleMenu(u);
      case GroupText => outcome := AnswerPrompt(u, route, message, env);
      case TeacherText => outcome := AnswerPrompt(u, route, message, env);
      case ButtonsOnly =>
        SendMsg(u.id, ButtonsOnlyText, NoKeyboard);
        outcome := ReturnedNone;
      case FoundTeacherText => outcome := AnswerPrompt(u, route, message, env);
      case FoundGroupText => outcome := AnswerPrompt(u, route, message, env);
      case SubscriptionText => outcome := AnswerPrompt(u, route, message, env);
      case DateText => outcome := AnswerPrompt(u, route, message, env);
      case CalendarEmoji => outcome := ChoseCalendar(u);
      case DebugText => outcome := DebugMessage(u);
      case MainMenu => outcome := SendScheduleMenu(u);
    }

    /** The free-text prompts whose handlers call the schedule service. */
    method AnswerPrompt(u: User, route: Route, message: string, env: Env) returns (outcome: Ret)
      requires ValidClock(env.clock)
      requires route in {GroupText, TeacherText, FoundTeacherText, FoundGroupText, SubscriptionText, DateText}
      modifies this
      ensures Confined(old(users), users, u.id) && SentOnlyTo(old(sent), sent, u.id)
    {
      if route == GroupText {
        outcome := SendCheckGroup(u, message, env);
      } else if route == TeacherText {
        outcome := SearchTeacherToSet(u, message, env);
      } else if route == FoundTeacherText {
        outcome := SearchTeacherSchedule(u, message, env);
      } else if route == FoundGroupText {
        outcome := SearchCheckGroup(u, message, env);
      } else if route == SubscriptionText {
        outcome := UpdateSubscribeTime(u, message);
      } else {
        outcome := SendDayScheduleText(u, message, env);
      }
    }
  }
}
