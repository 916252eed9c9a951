/** The dialogues of the bot, told as record changes followed by routing:
    after each handler's record change, which prompt the user's next plain
    message answers. A plain message is one that is neither the start
    keyword nor a start command, carries no `menu` payload, and comes from
    a record without the legacy marker. The rows below are the user's row
    after `update_user` merged the handler's patch into it (Records.Updated). */
module Dialogue {
  import opened Values
  import opened Text
  import opened Records
  import opened Dispatch
  import opened Engine

  predicate Plain(text: string, p: Payload, row: Row)
  {
    !IsStart(text, p) && "menu" !in p && Get(row, Update) != Str("2")
  }

  /** No group or teacher search awaits its text. */
  predicate NoSearchPending(row: Row)
  {
    !(Get(row, FoundName) == Pending && Get(row, FoundId) == Str("0"))
  }

  predicate SelectionRoute(r: Route)
  {
    r == GroupText || r == TeacherText || r == ButtonsOnly
  }

  predicate SearchRoute(r: Route)
  {
    r == FoundTeacherText || r == FoundGroupText
  }

  /** Onboarding. After send_choice_group only the role buttons are
      accepted; after set_role the next message is the group (student) or
      teacher (teacher) name, and any other role stored from the payload
      leaves the user at the buttons. */
  lemma OnboardingRoutes(row: Row, text: string, p: Payload, role: Val)
    requires Plain(text, p, row)
    ensures Classify(text, p, Merge(row, AwaitRole)) == ButtonsOnly
    ensures Classify(text, p, Merge(row, RoleChosen(role))) ==
      if role == Str(ROLE_STUDENT) then GroupText
      else if role == Str(ROLE_TEACHER) then TeacherText
      else ButtonsOnly
  {
    var waiting := Merge(row, AwaitRole);
    assert Get(waiting, CurrentName) == Pending && Get(waiting, Role) == Null;
    assert Get(waiting, Update) == Get(row, Update);
    var chosen := Merge(row, RoleChosen(role));
    assert Get(chosen, CurrentName) == Pending && Get(chosen, Role) == role;
    assert Get(chosen, Update) == Get(row, Update);
  }

  /** A failed group lookup keeps the group prompt; a successful one ends it
      unless the group is literally named CHANGES. */
  lemma GroupLookupRoutes(row: Row, text: string, p: Payload, name: string, id: Val)
    requires Plain(text, p, row) && Get(row, CurrentName) == Pending && Get(row, Role) == Str(ROLE_STUDENT)
    ensures Classify(text, p, Merge(row, map[CurrentName := Pending])) == GroupText
    ensures name != CHANGES ==> !SelectionRoute(Classify(text, p, Merge(row, GroupSet(name, id))))
  {
    var failed := Merge(row, map[CurrentName := Pending]);
    assert Get(failed, CurrentName) == Pending && Get(failed, Role) == Get(row, Role);
    assert Get(failed, Update) == Get(row, Update);
    PendingSelectionCapturesText(text, p, failed);
    var named := Merge(row, GroupSet(name, id));
    assert Get(named, CurrentName) == Str(name);
    RoutesNeedMarkers(text, p, named);
  }

  /** A group stored by send_check_group is normalised: it holds no space,
      normalising it again changes nothing, and both display flags are off. */
  lemma GroupSetStoresNormalised(row: Row, text: string, id: Val)
    ensures var after := Merge(row, GroupSet(NormaliseGroupName(text), id));
      var stored := Get(after, CurrentName);
      stored.Str? && NormaliseGroupName(stored.s) == stored.s
      && (forall k :: 0 <= k < |stored.s| ==> stored.s[k] != ' ')
      && Get(after, CurrentId) == id
      && Get(after, ShowGroups) == Flag(false) && Get(after, ShowLocation) == Flag(false)
  {
    NormaliseIdempotent(text);
    NormalisedHasNoSpace(text);
  }

  /** Searching. send_search primes the found columns so that the next plain
      message is the teacher or group searched for (unless a selection is
      pending, which takes priority). */
  lemma SearchOpens(row: Row, text: string, p: Payload)
    requires Plain(text, p, row) && Get(row, CurrentName) != Pending
    ensures Classify(text, p, Merge(row, StartSearch(ROLE_TEACHER))) == FoundTeacherText
    ensures Classify(text, p, Merge(row, StartSearch(ROLE_STUDENT))) == FoundGroupText
  {
    var teacher := Merge(row, StartSearch(ROLE_TEACHER));
    assert Get(teacher, FoundName) == Pending && Get(teacher, FoundId) == Str("0");
    assert Get(teacher, FoundType) == Str(ROLE_TEACHER);
    assert Get(teacher, CurrentName) == Get(row, CurrentName) && Get(teacher, Update) == Get(row, Update);
    var student := Merge(row, StartSearch(ROLE_STUDENT));
    assert Get(student, FoundName) == Pending && Get(student, FoundId) == Str("0");
    assert Get(student, FoundType) == Str(ROLE_STUDENT);
    assert Get(student, CurrentName) == Get(row, CurrentName) && Get(student, Update) == Get(row, Update);
  }

  /** No teacher match, a failed group lookup and the end of
      send_teacher_schedule all end the search; a single teacher match ends
      it unless the service's id for that teacher is "0". (Several matches
      change nothing, so the search goes on.) */
  lemma SearchEnds(row: Row, text: string, p: Payload, m: Match)
    ensures !SearchRoute(Classify(text, p, Merge(Merge(row, StartSearch(ROLE_TEACHER)), EndSearch)))
    ensures !SearchRoute(Classify(text, p, Merge(Merge(row, StartSearch(ROLE_STUDENT)),
                                                 map[FoundName := Null])))
    ensures m.id != Str("0") ==>
      !SearchRoute(Classify(text, p, Merge(Merge(row, StartSearch(ROLE_TEACHER)), Found(m.id, m.name))))
  {
    var ended := Merge(Merge(row, StartSearch(ROLE_TEACHER)), EndSearch);
    assert Get(ended, FoundName) == Null;
    NoSearchRoute(text, p, ended);
    var dropped := Merge(Merge(row, StartSearch(ROLE_STUDENT)), map[FoundName := Null]);
    assert Get(dropped, FoundName) == Null;
    NoSearchRoute(text, p, dropped);
    if m.id != Str("0") {
      var picked := Merge(Merge(row, StartSearch(ROLE_TEACHER)), Found(m.id, m.name));
      assert Get(picked, FoundId) == m.id;
      NoSearchRoute(text, p, picked);
    }
  }

  /** Without both search markers no search route is taken. */
  lemma NoSearchRoute(text: string, p: Payload, row: Row)
    requires NoSearchPending(row)
    ensures !SearchRoute(Classify(text, p, row))
  {
    RoutesNeedMarkers(text, p, row);
  }

  /** The one-day prompt: after send_one_day_schedule the next plain message
      is read as a date (when no selection, search or subscription prompt is
      pending), and after send_day_schedule_text it no longer is, whatever
      that date was. */
  lemma OneDayRoutes(row: Row, text: string, p: Payload)
    requires Plain(text, p, row) && Get(row, CurrentName) != Pending && NoSearchPending(row)
    requires Get(row, SubscriptionDays) != Pending
    ensures Classify(text, p, Merge(row, AwaitDate)) == DateText
    ensures Classify(text, p, Merge(Merge(row, AwaitDate), DateServed)) != DateText
  {
  }

  /** The subscription dialogue. After subscribe_schedule the next plain
      message is the time. A valid time leaves `subscription_days` at the
      marker, so the message after it is again read as a time until a period
      button is pressed. */
  lemma SubscriptionRoutes(row: Row, text: string, p: Payload, time: string, group: Val)
    requires Plain(text, p, row) && Get(row, CurrentName) != Pending && NoSearchPending(row)
    ensures Classify(text, p, Merge(row, AwaitSubscription)) == SubscriptionText
    ensures Classify(text, p, Merge(Merge(row, AwaitSubscription), TimeChosen(time, group)))
      == SubscriptionText
  {
    var asked := Merge(row, AwaitSubscription);
    assert Get(asked, SubscriptionDays) == Pending;
    assert Get(asked, CurrentName) == Get(row, CurrentName) && Get(asked, Update) == Get(row, Update);
    assert Get(asked, FoundName) == Get(row, FoundName) && Get(asked, FoundId) == Get(row, FoundId);
    var timed := Merge(asked, TimeChosen(time, group));
    assert Get(timed, SubscriptionDays) == Pending;
    assert Get(timed, CurrentName) == Get(row, CurrentName) && Get(timed, Update) == Get(row, Update);
    assert Get(timed, FoundName) == Get(row, FoundName) && Get(timed, FoundId) == Get(row, FoundId);
  }

  /** Whichever step of the subscription dialogue fails, all three columns
      are cleared and nothing else changes. */
  lemma SubscriptionRollback(row: Row, time: string, group: Val)
    ensures Unsubscribed(Merge(Merge(row, AwaitSubscription), NoSubscription))
    ensures Unsubscribed(Merge(Merge(Merge(row, AwaitSubscription), TimeChosen(time, group)), NoSubscription))
    ensures forall f :: f !in NoSubscription ==>
      Get(Merge(Merge(Merge(row, AwaitSubscription), TimeChosen(time, group)), NoSubscription), f)
      == Get(row, f)
  {
  }

  /** A period completes the subscription with the time and group chosen
      before it, and ends the time prompt. */
  lemma SubscriptionCompletes(row: Row, text: string, p: Payload, time: string, group: Val, kind: Val)
    requires Plain(text, p, row) && kind != Pending
    ensures var done := Merge(Merge(Merge(row, AwaitSubscription), TimeChosen(time, group)),
                              map[SubscriptionDays := kind]);
      Classify(text, p, done) != SubscriptionText
      && Get(done, SubscriptionTime) == Str(time) && Get(done, SubscriptionGroup) == group
      && Get(done, SubscriptionDays) == kind
  {
    var timed := Merge(Merge(row, AwaitSubscription), TimeChosen(time, group));
    var done := Merge(timed, map[SubscriptionDays := kind]);
    assert Get(timed, SubscriptionTime) == Str(time) && Get(timed, SubscriptionGroup) == group;
    assert Get(done, SubscriptionDays) == kind;
    RoutesNeedMarkers(text, p, done);
  }

  /** The settings toggle flips exactly one flag, and flipping a stored
      boolean twice restores it. */
  lemma ToggleTwice(row: Row, f: Field)
    requires f == ShowGroups || f == ShowLocation
    requires f in row && row[f].Flag?
    ensures var once := Merge(row, Flipped(row, f));
      Truthy(Get(once, f)) == !Truthy(Get(row, f))
      && (forall g :: g != f ==> Get(once, g) == Get(row, g))
      && Merge(once, Flipped(once, f)) == row
  {
    var once := Merge(row, Flipped(row, f));
    var twice := Merge(once, Flipped(once, f));
    assert twice.Keys == row.Keys;
  }

  /** Re-onboarding of a legacy record happens once: the marker becomes "3",
      so no later event is routed to it again, and the next plain message
      meets the role buttons. */
  lemma ReonboardingEnds(row: Row, text: string, p: Payload)
    ensures var renewed := Merge(Merge(row, Renew), AwaitRole);
      Get(renewed, Update) == Str("3")
      && Classify(text, p, renewed) != Reonboard
      && (!IsStart(text, p) && "menu" !in p ==> Classify(text, p, renewed) == ButtonsOnly)
  {
  }

  /** Error 901 from the transport drops a subscription at any stage. */
  lemma RefusalDropsSubscription(store: Store, id: int)
    requires id in store
    ensures Unsubscribed(Updated(store, id, NoSubscription)[id])
    ensures Confined(store, Updated(store, id, NoSubscription), id)
  {
    ClearingUnsubscribes(store, id);
  }

  /** Prompts can overlap: the one-day prompt stays set when a subscription
      is started, and the subscription prompt, being first in priority,
      takes the next plain message. */
  lemma PromptsOverlap(row: Row, text: string, p: Payload)
    requires Plain(text, p, row) && Get(row, CurrentName) != Pending && NoSearchPending(row)
    ensures var both := Merge(Merge(row, AwaitDate), AwaitSubscription);
      Get(both, ScheduleDayDate) == Pending && Get(both, SubscriptionDays) == Pending
      && Classify(text, p, both) == SubscriptionText
  {
    var both := Merge(Merge(row, AwaitDate), AwaitSubscription);
    assert Get(both, ScheduleDayDate) == Pending && Get(both, SubscriptionDays) == Pending;
    assert Get(both, CurrentName) == Get(row, CurrentName) && Get(both, Update) == Get(row, Update);
    assert Get(both, FoundName) == Get(row, FoundName) && Get(both, FoundId) == Get(row, FoundId);
  }

  /** A new user whose first message is "start": the text is not the start
      keyword, but the empty record falls through every prompt to the main
      menu, which sends a user without a name or role to onboarding. */
  lemma NewUserSaysStart(peer: int)
    ensures Classify("start", map[], LoadedRow(map[], peer)) == MainMenu
    ensures NeedsOnboarding(LoadedRow(map[], peer))
  {
    assert Lower("start") == "start";
  }

  /** "PRIKL21" lowered, as the dispatcher lowers every text. */
  lemma LoweredGroupName()
    ensures Lower("PRIKL21") == "prikl21"
  {
    var typed := Lower("PRIKL21");
    assert typed[0] == 'p' && typed[1] == 'r' && typed[2] == 'i' && typed[3] == 'k';
    assert typed[4] == 'l' && typed[5] == '2' && typed[6] == '1';
  }

  /** "PRIKL21" is not the start keyword: it is one letter longer. */
  lemma TypedGroupIsNotStart()
    ensures !IsStart("PRIKL21", map[])
  {
    LoweredGroupName();
    assert |StartKeyword| == 6;
  }

  /** "prikl21" has no white space to strip or drop. */
  lemma LoweredGroupNameIsBare()
    ensures Strip("prikl21") == "prikl21"
    ensures RemoveSpaces("prikl21") == "prikl21"
  {
    var typed := "prikl21";
    assert StripLeft(typed) == typed;
    assert StripRight(typed) == typed;
    RemoveSpacesKeepsOthers(typed);
  }

  /** "PRIKL21" typed in any case normalises to itself. */
  lemma GroupNameExample()
    ensures NormaliseGroupName(Lower("PRIKL21")) == "PRIKL21"
  {
    LoweredGroupName();
    LoweredGroupNameIsBare();
    UpperedGroupName();
  }

  /** "prikl21" upper-cased, as the group handler does. */
  lemma UpperedGroupName()
    ensures Upper("prikl21") == "PRIKL21"
  {
    var u := Upper("prikl21");
    assert u[0] == 'P' && u[1] == 'R' && u[2] == 'I' && u[3] == 'K';
    assert u[4] == 'L' && u[5] == '2' && u[6] == '1';
  }

  /** A student at the group prompt types "PRIKL21": the text reaches the
      group handler, which looks up and stores "PRIKL21" with both display
      flags off. */
  lemma PendingStudentTypesGroup(row: Row, id: Val)
    requires Get(row, CurrentName) == Pending && Get(row, Role) == Str(ROLE_STUDENT)
    requires Get(row, Update) != Str("2")
    ensures Classify("PRIKL21", map[], row) == GroupText
    ensures var after := Merge(row, GroupSet(NormaliseGroupName(Lower("PRIKL21")), id));
      Get(after, CurrentName) == Str("PRIKL21") && Get(after, CurrentId) == id
      && Get(after, ShowGroups) == Flag(false) && Get(after, ShowLocation) == Flag(false)
  {
    TypedGroupRoutes(row);
    TypedGroupStored(row, id);
  }

  /** The typed group reaches the group handler. */
  lemma TypedGroupRoutes(row: Row)
    requires Get(row, CurrentName) == Pending && Get(row, Role) == Str(ROLE_STUDENT)
    requires Get(row, Update) != Str("2")
    ensures Classify("PRIKL21", map[], row) == GroupText
  {
    TypedGroupIsNotStart();
    PendingSelectionCapturesText("PRIKL21", map[], row);
  }

  /** The group handler stores the typed group as it was typed. */
  lemma TypedGroupStored(row: Row, id: Val)
    ensures var after := Merge(row, GroupSet(NormaliseGroupName(Lower("PRIKL21")), id));
      Get(after, CurrentName) == Str("PRIKL21") && Get(after, CurrentId) == id
      && Get(after, ShowGroups) == Flag(false) && Get(after, ShowLocation) == Flag(false)
  {
    GroupNameExample();
  }
}
