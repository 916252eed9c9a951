# Dialogue engine of the university schedule bot, in Dafny

This project models the per-user dialogue engine of the schedule bot in
`app/bot.py`. The bot answers messages on a messaging platform. For each
inbound event, `Bot.handle_new_message` does three things:

- it loads the sender's record, or creates an empty one for a new peer;
- it routes the event through a fixed chain of guards;
- it runs one handler.

A handler changes the sender's record through partial updates
(`update_user`) and sends messages (`send_msg`). A text longer than 4000
characters goes out in slices.

The Dafny files, one module each:

- `values.dfy` (`Values`): the scalar values held in record columns and in
  decoded button payloads, and Python's `str()` of them.
- `text.dfy` (`Text`):
  - `lower`/`upper` and `strip`;
  - the group-name normalisation;
  - the 4000-character slicing of `send_msg`.
- `calendar.dfy` (`Calendar`):
  - dates and ordinals, ISO weekdays, and the week-start sentinels -1 and -2;
  - the day offset of a typed date;
  - `strptime("%d.%m.%Y")` and `strptime("%H:%M")`, with their `strftime`
    inverses.
- `records.dfy` (`Records`):
  - the user record, as a map from column to value, where a missing column
    reads as NULL;
  - the store, as a map from peer id to record;
  - `update_user`, a partial merge;
  - the "CHANGES" marker.
- `dispatch.dfy` (`Dispatch`): the guard chain of `handle_new_message` as a
  pure function `Classify`, and the set of handlers a `menu` payload can name.
- `engine.dfy` (`Engine`): class `Bot`.
  - Its fields are the record store `users` and the log `sent` of transport
    calls.
  - Its methods are `send_msg` (a loop over the slices), every handler, and
    `handle_new_message`.
  - Each handler states its exact new store and new log, that only the
    sender's record changes, and that every message goes to the sender.
- `dialogue.dfy` (`Dialogue`):
  - for each handler's record change, which prompt the user's next plain
    message answers: onboarding, group lookup, search, the one-day date,
    the subscription chain, the settings toggle, re-onboarding;
  - two example dialogues: a new user who writes "start", and a student
    at the group prompt who types the group "PRIKL21".

Each event receives its collaborators in an `Env` value: the schedule
service (`get_group`, `get_teacher`, `format_schedule`), the statement
builder `User.cancel_changes`, and the wall clock (today's date and the
time of day). The bot's fixed functions are the templates of
`app/utils/strings.py`, `str(user)` and `urlencode`.

Some behaviour of the source is kept as written:

- The start test `message == ("начать" or "start" or "сброс")` compares
  only against "начать".
- The subscription prompt is recognised by `subscription_days`.
- After a valid time, `subscription_days` stays "CHANGES", so the next
  plain message is read as a time again.
- The `menu` payload names a handler method, because it is dispatched with
  `getattr`.

Some behaviour a reader might expect is not what the code does. The model
follows the code, and these lemmas and contracts show it:

- **Start keyword.** Typed "start" and "сброс" do not restart the dialogue;
  only "начать" does, or a `command: start` payload
  (`Dispatch.StartKeywordAsWritten`). A new user who writes "start" still
  meets onboarding, through the main-menu fallback
  (`Dialogue.NewUserSaysStart`, `Engine.Bot.HandleNewMessage`).
- **Single teacher match.** One match during a teacher search sets only
  `found_id` and `found_name` (`Engine.Bot.SearchTeacherSchedule`); the
  user's own teacher is set only by `search_teacher_to_set` or by the
  `set_teacher` button (`Engine.Bot.SearchTeacherToSet`,
  `Engine.Bot.SetTeacher`).
- **Overlapping prompts.** More than one prompt can be pending at a time;
  the guard order decides which one the next message answers
  (`Dialogue.PromptsOverlap`).
- **Empty schedule.** `send_schedule` and `send_day_schedule_text` test the
  schedule only for `None`. An empty schedule text is sent as it is, which
  makes no transport call, so the user gets nothing, or only the menu
  (`Engine.Bot.SendSchedule`, `Engine.Bot.SendDayScheduleText`).
- **Two updates in one handler.** `user_update_2` updates the record twice
  (the renewal, then the onboarding marker of `send_choice_group`), and
  `cancel` executes the rollback and may then start onboarding
  (`Engine.Bot.UserUpdate2`, `Engine.Bot.Cancel`).

## Model

| member | source | states |
|---|---|---|
| Text.CaseFoldsAgree | app/bot.py:104 | upper-casing a lowered text is upper-casing it directly, lowering an upper-cased text is lowering it directly, and lowering twice is lowering once |
| Text.NormaliseIgnoresCase | app/bot.py:369 | for every text, the group name looked up is the same whether or not the dispatcher lowered the text first (the lowering is at line 104) |
| Text.Strip | app/bot.py:369 | no white space is left at either end |
| Text.StripRemovesOnlyEnds | app/bot.py:369 | the stripped text is one contiguous piece of the input with only white space before and after it |
| Text.StripLeftIsSuffix | app/bot.py:369 | `lstrip` leaves a suffix of the input and removes only white space |
| Text.StripRightIsPrefix | app/bot.py:369 | `rstrip` leaves a prefix of the input and removes only white space |
| Text.NormalisedHasNoSpace | app/bot.py:369 | a normalised group name holds no space and has no white space at either end |
| Text.NormaliseIdempotent | app/bot.py:369 | normalising a normalised group name changes nothing |
| Text.PartIndexRange | app/bot.py:153-155 | the slice starts below the length are exactly the first ceil(L/4000) multiples of 4000 |
| Text.Slices | app/bot.py:153-155 | a message of length L has ceil(L/4000) slices |
| Text.SlicesBounded | app/bot.py:153-155 | every slice holds 1 to 4000 characters; an empty message has no slice |
| Text.SlicesReassemble | app/bot.py:153-158 | the slices, concatenated in order, are the message |
| Calendar.ThisWeekStart | app/bot.py:260-261 | sentinel -1 becomes an offset in [-6, 0] that, from any day with the given weekday, lands on a Monday |
| Calendar.NextWeekStart | app/bot.py:262-263 | sentinel -2 becomes an offset in [1, 7] that, from any day with the given weekday, lands on a Monday |
| Calendar.SentinelsLandOnMonday | app/bot.py:260-263 | counted from today, both sentinels land on a Monday; next week's is seven days after this week's |
| Calendar.DaysFromNowIsDayDifference | app/bot.py:326 | the offset of a typed date is its day difference from today, plus one at exactly midnight |
| Calendar.SplitDots | app/bot.py:313 | `split(".")` yields at least one piece and no piece holds a dot |
| Calendar.StrptimeDate | app/bot.py:314 | a parsed date is a real calendar date |
| Calendar.ParseTypedDate | app/bot.py:310-320 | a typed date that parses is a real calendar date |
| Calendar.FormatDateRoundTrip | app/bot.py:314-338 | a date formatted as `%d.%m.%Y` parses back to the same date and splits into three pieces (`strftime` at line 338, `strptime` at line 314) |
| Calendar.TypedFullDateRoundTrip | app/bot.py:310-314 | a date typed as day.month.year is read as that date, whatever the current year |
| Calendar.DayMonthExample | app/bot.py:315-318 | "15.03" is 15 March of the current year |
| Calendar.SpacesIgnored | app/bot.py:310 | for every typed text, spaces anywhere in it make no difference to the date read |
| Calendar.DayMonthRule | app/bot.py:315-318 | every real date typed as DD.MM, two digits each, is read as that day of the current year |
| Calendar.UnpaddedFields | app/bot.py:314 | `%d` and `%m` read a day or month number written without zero padding ("5", "15") as that number |
| Calendar.UnpaddedDayMonthRule | app/bot.py:315-318 | every real date typed as day.month without zero padding ("5.3", "15.3") is read as that day of the current year |
| Calendar.SpacedDayMonthExample | app/bot.py:310 | "15 . 03" is read as "15.03" |
| Calendar.DayMonthYearExample | app/bot.py:313-314 | "15.03.2021" is 15 March 2021 in any year |
| Calendar.MalformedDateExamples | app/bot.py:319-325 | "15/03" and "abc" are not dates |
| Calendar.StrptimeTime | app/bot.py:746 | a parsed time has hour 0-23 and minute 0-59 |
| Calendar.NormaliseTime | app/bot.py:746 | the stored time is five characters with ':' in the middle, and exists exactly when `%H:%M` parses |
| Calendar.FormatTimeRoundTrip | app/bot.py:746 | a stored time parses back to the same hour and minute, so storing it again changes nothing |
| Calendar.TimeExamples | app/bot.py:746 | "7:5" is stored as "07:05" and "23:59" as itself |
| Calendar.MalformedTimeExamples | app/bot.py:745-748 | "24:00", "12:60" and "12.30" are refused |
| Records.Merge | app/bot.py:75-77 | the patched columns take the patch's values; every other column keeps its value |
| Records.Updated | app/bot.py:75-77 | one row changes, by a merge; no row appears or disappears |
| Records.ClearingUnsubscribes | app/bot.py:704-709 | clearing the subscription empties its three columns and leaves the rest |
| Dispatch.ActionNamed | app/bot.py:113-116 | a method name maps to the handler of that name |
| Dispatch.ActionNamesRoundTrip | app/bot.py:113-116 | every handler's name dispatches to that handler, so no two handlers share a name |
| Dispatch.ParseActionRefuses | app/bot.py:115-119 | a `menu` value that is no handler's name dispatches to nothing |
| Dispatch.StartKeywordAsWritten | app/bot.py:106-110 | the start keyword is "начать" in any letter case; typed "start" and "сброс" are not start keywords; a `command: start` payload is |
| Dispatch.PayloadNeverReadAsText | app/bot.py:113-120 | an event with a `menu` payload never reaches a free-text handler |
| Dispatch.MenuDispatch | app/bot.py:113-119 | a handler's name in `menu` runs that handler; an unknown name falls back to the menu |
| Dispatch.PendingSelectionCapturesText | app/bot.py:120-131 | a free-text event goes to group or teacher selection exactly when `current_name` is "CHANGES"; it goes to group selection exactly when the role is also student |
| Dispatch.SubscriptionGuardReadsDays | app/bot.py:137-138 | routing ignores `subscription_time`; the time prompt is served only while `subscription_days` is "CHANGES" |
| Dispatch.RoutesNeedMarkers | app/bot.py:111-140 | each prompt is served only while its own marker is set |
| Dispatch.FreeTextPriority | app/bot.py:120-140 | the date prompt is served only when no selection, search or subscription prompt is pending; the subscription prompt only when no selection or search is pending |
| Engine.Deliver | app/bot.py:153-158 | one transport call per slice, all to the peer and all with the keyboard |
| Engine.DeliverReassembles | app/bot.py:153-158 | the peer receives exactly the message, in parts of 1 to 4000 characters; an empty message makes no call |
| Engine.PeriodsAccepted | app/bot.py:779-796 | exactly the five periods today, tomorrow, today_and_tomorrow, this_week and next_week are accepted |
| Engine.WeekButtons | app/bot.py:248-263 | both schedule handlers ask for the week buttons' schedule from this or next Monday; an empty payload asks for today, one day; other offsets pass through (send_teacher_schedule resolves the sentinels the same way, lines 623-628) |
| Engine.Bot.UpdateUser | app/bot.py:75-77 | the store becomes the partial merge, and nothing is sent |
| Engine.Bot.SendMsg | app/bot.py:148-158 | the log grows by exactly `Deliver` of the message (proved through the loop invariant), and the store is unchanged |
| Engine.Bot.OnSendError | app/bot.py:159-169 | error 901 clears the subscription; no other error changes anything |
| Engine.Bot.SendScheduleMenu | app/bot.py:210-226 | a user without a name or role, or one with the name still pending, is sent to onboarding; anyone else gets the menu |
| Engine.Bot.SendSchedule | app/bot.py:228-287 | the schedule for the payload's offset and days; with no schedule, the apology and None |
| Engine.Bot.SendOneDaySchedule | app/bot.py:289-300 | the date prompt is set and the date is asked for |
| Engine.Bot.SendDayScheduleText | app/bot.py:302-348 | the date prompt is cleared whatever follows; an unreadable date gets the incorrect-date reply without a lookup; a found schedule is followed by the menu |
| Engine.Bot.SendChoiceGroup | app/bot.py:350-360 | the name becomes pending, the role is cleared, and the role buttons are sent |
| Engine.Bot.SendCheckGroup | app/bot.py:362-406 | success stores the normalised name and the service's id with both flags off; any error only makes the name pending again; the user is returned only on success and on "Not found" |
| Engine.Bot.SearchCheckGroup | app/bot.py:408-444 | success sets the found group; an error clears `found_name`; the user is returned only on success and on "Not found" |
| Engine.Bot.SendSearch | app/bot.py:446-465 | a teacher or student role primes the search columns; another role changes nothing; a missing role raises |
| Engine.Bot.SendSearchTeacher | app/bot.py:467-474 | a teacher search is opened whatever the payload's role |
| Engine.Bot.SearchGroup | app/bot.py:476-481 | a group search is opened whatever the payload's role |
| Engine.Bot.SearchTeacherSchedule | app/bot.py:483-530 | by the number of matches: an error changes no column; one match becomes the found teacher; several change nothing and return the user; none ends the search and returns None |
| Engine.Bot.SearchTeacherToSet | app/bot.py:532-575 | one match becomes the user's own teacher with both flags on; no other outcome changes the record |
| Engine.Bot.SetTeacher | app/bot.py:577-591 | the payload's teacher becomes the user's own, with both flags on; a missing key raises before any change |
| Engine.Bot.SendTeacher | app/bot.py:593-614 | the payload's teacher becomes the found subject; without both keys the search ends |
| Engine.Bot.SendTeacherSchedule | app/bot.py:617-646 | the found subject's schedule, or the apology when it is empty; the search ends in either case |
| Engine.Bot.ShowGroupsOrLocation | app/bot.py:652-681 | flips exactly the flag named by the payload, in the store and in the returned copy alike; an unknown type changes nothing and sends the error text |
| Engine.Bot.SendSettingsMenu | app/bot.py:683-691 | only the settings menu is sent |
| Engine.Bot.UnsubscribeSchedule | app/bot.py:697-715 | the subscription's three columns are cleared |
| Engine.Bot.SubscribeSchedule | app/bot.py:717-737 | the three subscription columns are set to "CHANGES" |
| Engine.Bot.UpdateSubscribeTime | app/bot.py:739-771 | a valid time is stored zero-padded, with the current name as the group, and `subscription_days` is left pending; anything else clears all three columns |
| Engine.Bot.UpdateSubscribeDay | app/bot.py:773-819 | one of the five periods completes the subscription; any other value clears all three columns and returns None |
| Engine.Bot.ChoseCalendar | app/bot.py:821-823 | only the calendar face is sent |
| Engine.Bot.CalendarLink | app/bot.py:825-836 | the calendar link for the user's name, kind and id is sent |
| Engine.Bot.ChangeRole | app/bot.py:838-840 | only the welcome with the role buttons is sent |
| Engine.Bot.SetRole | app/bot.py:842-853 | the example for the role is sent first; then the payload's role is stored and the name becomes pending |
| Engine.Bot.Search | app/bot.py:855-857 | only the search menu is sent |
| Engine.Bot.Cancel | app/bot.py:859-864 | the rollback that `cancel_changes` builds, if any, is applied; then the schedule menu for the record as loaded |
| Engine.Bot.DebugMessage | app/bot.py:866-867 | the record's text form is sent to its owner |
| Engine.Bot.UserUpdate2 | app/bot.py:869-875 | the name and role are cleared, the marker becomes "3", and onboarding follows |
| Engine.Bot.RunAction | app/bot.py:116 | whichever handler a payload names, only the sender's record changes and every message goes to the sender |
| Engine.Bot.Respond | app/bot.py:110-146 | whichever route is taken, only the sender's record changes and every message goes to the sender; the start keyword, an unknown menu name and the main-menu fallback show the menu, or onboarding to a user who needs it; re-onboarding, the buttons-only reply, the calendar emoji and `/debug` have their handlers' exact effects |
| Engine.Bot.AnswerPrompt | app/bot.py:120-140 | a free-text answer to a selection, search, subscription or date prompt changes only the sender's record and sends only to the sender |
| Engine.Bot.HandleNewMessage | app/bot.py:86-146 | when the store is down, the apology is sent and the event ends; otherwise a new peer gets an empty record, the route is the guard chain's verdict on the loaded record, no other record changes, and every message goes to the sender; a menu route answers with onboarding exactly when the loaded record needs it |
| Dialogue.OnboardingRoutes | app/bot.py:121-131 | after send_choice_group only the buttons are accepted; after set_role the next message is a group name (student), a teacher name (teacher), or meets the buttons (any other role) (the patches of send_choice_group, lines 350-360, and set_role, lines 842-853) |
| Dialogue.GroupLookupRoutes | app/bot.py:371-388 | a failed lookup keeps the group prompt; a successful one ends it unless the group is named "CHANGES" |
| Dialogue.GroupSetStoresNormalised | app/bot.py:369-380 | the stored group name holds no space and normalises to itself, and both flags are off |
| Dialogue.SearchOpens | app/bot.py:132-136 | after send_search the next plain message is the teacher or group searched for (the patch of send_search, lines 458-461) |
| Dialogue.SearchEnds | app/bot.py:505-526 | no match or a failed group lookup ends the search; so does a single teacher match whose id is not "0" (and search_check_group at line 432) |
| Dialogue.OneDayRoutes | app/bot.py:139-140 | after the date prompt the next plain message is read as a date, and after the date handler it no longer is (the marker is set at line 296 and cleared at line 311) |
| Dialogue.SubscriptionRoutes | app/bot.py:724-763 | after subscribe_schedule, and again after a valid time, the next plain message is read as a time (the guard at lines 137-138 reads `subscription_days`) |
| Dialogue.SubscriptionRollback | app/bot.py:748-804 | a failure at either step clears all three subscription columns and nothing else |
| Dialogue.SubscriptionCompletes | app/bot.py:811 | a period completes the subscription with the time and group chosen before it, and ends the time prompt |
| Dialogue.ToggleTwice | app/bot.py:660-677 | a toggle flips exactly one flag, and two toggles restore a stored boolean |
| Dialogue.ReonboardingEnds | app/bot.py:869-875 | after re-onboarding, the legacy route is never taken again and the next plain message meets the role buttons (the guard at lines 111-112) |
| Dialogue.RefusalDropsSubscription | app/bot.py:161-169 | error 901 unsubscribes the peer and touches no other record |
| Dialogue.PromptsOverlap | app/bot.py:137-140 | the date prompt can stay set under a subscription prompt, and the subscription prompt takes the message (the markers are set at lines 296 and 724-731) |
| Dialogue.NewUserSaysStart | app/bot.py:106-146 | a new user's "start" falls through to the main menu, which sends them to onboarding (the new record at lines 89-95, the onboarding test at lines 216-221) |
| Dialogue.GroupNameExample | app/bot.py:369 | "PRIKL21", lowered and then normalised, is "PRIKL21" (the text was lowered at line 104) |
| Dialogue.PendingStudentTypesGroup | app/bot.py:121-123 | a student at the group prompt who types "PRIKL21" reaches the group handler, whose success stores "PRIKL21" with both flags off (the handler stores it at lines 369-380) |

## Left out

- The transport (`messages.send`, `get_random_id`, `dont_parse_links`), the long poll, `main_loop`'s concurrent tasks and `vk_bot_answer_unread`: events are handled one at a time, and a send is an entry in the log.
- `get_short_link`: it is handed to `format_schedule` as a link formatter, and the schedule text the service returns is taken as given.
- `format_schedule`, `get_group`, `get_teacher` and `User.cancel_changes`: they are inputs of the event (`Env`). Their own logic and their `text`/`link_formatter` arguments are not modelled. `cancel_changes` is taken to produce a partial update of the sender's own row.
- The templates of `app/utils/strings.py` and the keyboards of `app/utils/keyboards.py` are not part of this model. Templates are an abstract string table with their `format` arguments; keyboards are recorded by kind.
- JSON decoding of the payload: payloads arrive decoded as maps to scalar values.
- The inline-date branch of `send_schedule` (`PAYLOAD_SHOW_INLINE_DATE`, `PAYLOAD_DATE`, `DATE_FORMAT`): those constants are not in app/utils/constants.py, so the branch is taken as not taken.
- `MENUS_LIST` is not in app/utils/constants.py either; the accepted `menu` values are the names of the handler methods that take a payload.
- app/models.py, app/dependency.py and the schema migration: the record is modelled by its columns, and the store by a map. The coercion of `current_id`/`found_id` to the column type is not modelled.
- Engine.Bot.HandleNewMessage: the store being unreachable (`OperationalError`) is a parameter, `storeUp`. The source then fails on the unbound `user`; the model ends the event after the apology.
- Engine.Bot.OnSendError: a failed send is not injected into handler runs. The 901 branch is a method of its own, and the sends before the failure are not rolled back from the log.
- Engine.Bot.HandleNewMessage: beyond the route, confinement to the sender and the reply to a menu route, the effect of an event is stated by the handler the route runs.
- Engine.Bot.Respond: exact effects are stated for the menu, re-onboarding, buttons-only, calendar and `/debug` routes; the routes that call the schedule service go through Engine.Bot.AnswerPrompt.
- Engine.Bot.AnswerPrompt: only confinement to the sender is stated; the effect is that of the prompt handler's own contract.
- Engine.Bot.RunAction: only confinement to the sender is stated; the effect is that of the named handler's own contract.
- Text.Lower, Text.Upper: letter case is mapped one character to one character, for basic Latin (A-Z, a-z) and basic Cyrillic (U+0400-U+045F) only; accented Latin letters such as 'À' are left unchanged. Other scripts are left unchanged, and mappings that change the length, such as Python's `'ß'.upper()` giving "SS", are not modelled.
- Calendar.StrptimeDate, Calendar.StrptimeTime: only ASCII digits are read as digits. Python's `\d` also accepts other Unicode decimal digits.
- The clock is read once per event: `Env.clock` stands for every `now()`/`today()` call in a handler.
