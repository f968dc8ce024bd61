/** The asynchronous-message demultiplexer (src/demux.rs:84-285).  Everything it keeps up to date
    message by message is proved equal to what can be recomputed from all messages ever routed. */
module Demuxing {
  import opened Messages

  datatype TaggedNotice = TaggedNotice(command: nat, fields: seq<Diagnostic>)
  datatype Notification = Notification(processId: U32, channel: Bytes, payload: Bytes)
  datatype Status = Status(name: Bytes, value: Bytes)
  datatype AsyncEvent = NoticeEvent(notice: TaggedNotice) | StatusEvent(status: Status)
    | NotificationEvent(notification: Notification)
  datatype OrderedEvent = OrderedEvent(sequence: nat, command: nat, event: AsyncEvent)
  datatype CancelKey = CancelKey(processId: U32, secretKey: Bytes)

  datatype SessionItem =
    | Item(message: BackendMessage)
    | ReadyItem(status: TransactionStatus, parametersChanged: bool)
    | CompleteItem(tag: Bytes, command: nat, notices: seq<TaggedNotice>)

  /* ---------- recomputation from the whole history ---------- */

  /** The index of the current command: how many have completed. */
  function Commands(ms: seq<BackendMessage>): nat {
    if ms == [] then 0 else Commands(ms[..|ms| - 1]) + (if ms[|ms| - 1].CommandComplete? then 1 else 0)
  }

  /** The latest value of every reported parameter. */
  function Parameters(ms: seq<BackendMessage>): map<Bytes, Bytes> {
    if ms == [] then map[]
    else
      var last := ms[|ms| - 1];
      if last.ParameterStatus? then Parameters(ms[..|ms| - 1])[last.parameter := last.setting]
      else Parameters(ms[..|ms| - 1])
  }

  /** The parameters at the first ReadyForQuery. */
  function Baseline(ms: seq<BackendMessage>): Option<map<Bytes, Bytes>> {
    if ms == [] then None
    else if Baseline(ms[..|ms| - 1]).Some? then Baseline(ms[..|ms| - 1])
    else if ms[|ms| - 1].ReadyForQuery? then Some(Parameters(ms[..|ms| - 1]))
    else None
  }

  /** A baseline exists and differs from the current parameters. */
  predicate Changed(ms: seq<BackendMessage>) {
    Baseline(ms).Some? && Baseline(ms).value != Parameters(ms)
  }

  function EventOf(m: BackendMessage, command: nat): Option<AsyncEvent> {
    match m
    case NoticeResponse(fields) => Some(NoticeEvent(TaggedNotice(command, fields)))
    case ParameterStatus(name, value) => Some(StatusEvent(Status(name, value)))
    case NotificationResponse(process, channel, payload) =>
      Some(NotificationEvent(Notification(process, channel, payload)))
    case _ => None
  }

  /** The one log of asynchronous events, in wire order. */
  function AsyncLog(ms: seq<BackendMessage>): seq<OrderedEvent> {
    if ms == [] then []
    else
      var before, command := AsyncLog(ms[..|ms| - 1]), Commands(ms[..|ms| - 1]);
      match EventOf(ms[|ms| - 1], command)
      case None => before
      case Some(e) => before + [OrderedEvent(|before|, command, e)]
  }

  function NoticesOf(log: seq<OrderedEvent>): seq<TaggedNotice> {
    if log == [] then []
    else NoticesOf(log[..|log| - 1]) + (if log[|log| - 1].event.NoticeEvent? then [log[|log| - 1].event.notice] else [])
  }

  function StatusesOf(log: seq<OrderedEvent>): seq<Status> {
    if log == [] then []
    else
      StatusesOf(log[..|log| - 1])
      + (if log[|log| - 1].event.StatusEvent? then [log[|log| - 1].event.status] else [])
  }

  function NotificationsOf(log: seq<OrderedEvent>): seq<Notification> {
    if log == [] then []
    else
      NotificationsOf(log[..|log| - 1])
      + (if log[|log| - 1].event.NotificationEvent? then [log[|log| - 1].event.notification] else [])
  }

  /** The notices tagged with one command. */
  function TaggedWith(ns: seq<TaggedNotice>, command: nat): seq<TaggedNotice> {
    if ns == [] then []
    else TaggedWith(ns[..|ns| - 1], command) + (if ns[|ns| - 1].command == command then [ns[|ns| - 1]] else [])
  }

  function LatestKey(ms: seq<BackendMessage>): Option<CancelKey> {
    if ms == [] then None
    else if ms[|ms| - 1].BackendKeyData? then Some(CancelKey(ms[|ms| - 1].processId, ms[|ms| - 1].secretKey))
    else LatestKey(ms[..|ms| - 1])
  }

  function LatestStatus(ms: seq<BackendMessage>): Option<TransactionStatus> {
    if ms == [] then None
    else if ms[|ms| - 1].ReadyForQuery? then Some(ms[|ms| - 1].status)
    else LatestStatus(ms[..|ms| - 1])
  }

  /** What the session is given for the last message. */
  function ItemFor(before: seq<BackendMessage>, m: BackendMessage): Option<SessionItem> {
    match m
    case NoticeResponse(_) => None
    case ParameterStatus(_, _) => None
    case NotificationResponse(_, _, _) => None
    case ReadyForQuery(status) => Some(ReadyItem(status, Changed(before)))
    case CommandComplete(tag) =>
      Some(CompleteItem(tag, Commands(before), TaggedWith(NoticesOf(AsyncLog(before)), Commands(before))))
    case _ => Some(Item(m))
  }

  /* ---------- facts about the recomputation ---------- */

  /** The log is strictly sequenced from zero, and commands never go back. */
  lemma {:induction false} LogIsSequenced(ms: seq<BackendMessage>)
    ensures forall i :: 0 <= i < |AsyncLog(ms)| ==>
      AsyncLog(ms)[i].sequence == i && AsyncLog(ms)[i].command <= Commands(ms)
    ensures forall i, j :: 0 <= i < j < |AsyncLog(ms)| ==> AsyncLog(ms)[i].command <= AsyncLog(ms)[j].command
    ensures |AsyncLog(ms)| <= |ms| && Commands(ms) <= |ms|
  {
    if ms != [] { LogIsSequenced(ms[..|ms| - 1]); }
  }

  lemma {:induction false} NoticesAreOld(ms: seq<BackendMessage>)
    ensures forall i :: 0 <= i < |NoticesOf(AsyncLog(ms))| ==> NoticesOf(AsyncLog(ms))[i].command <= Commands(ms)
  {
    if ms != [] {
      NoticesAreOld(ms[..|ms| - 1]);
      var log := AsyncLog(ms);
      if |log| > |AsyncLog(ms[..|ms| - 1])| { assert log[..|log| - 1] == AsyncLog(ms[..|ms| - 1]); }
    }
  }

  lemma {:induction false} NoneTagged(ns: seq<TaggedNotice>, command: nat)
    requires forall i :: 0 <= i < |ns| ==> ns[i].command < command
    ensures TaggedWith(ns, command) == []
  {
    if ns != [] { NoneTagged(ns[..|ns| - 1], command); }
  }

  /** All notices handed over with command completions, in order. */
  function Carried(ms: seq<BackendMessage>): seq<TaggedNotice> {
    if ms == [] then []
    else
      var before := ms[..|ms| - 1];
      Carried(before)
        + (if ms[|ms| - 1].CommandComplete? then TaggedWith(NoticesOf(AsyncLog(before)), Commands(before)) else [])
  }

  /** What one more message adds to each recomputation. */
  lemma Snoc(before: seq<BackendMessage>, m: BackendMessage)
    ensures var ms := before + [m];
      && Commands(ms) == Commands(before) + (if m.CommandComplete? then 1 else 0)
      && Parameters(ms) ==
        (if m.ParameterStatus? then Parameters(before)[m.parameter := m.setting] else Parameters(before))
      && Baseline(ms) == (if Baseline(before).Some? then Baseline(before)
        else if m.ReadyForQuery? then Some(Parameters(before)) else None)
      && LatestKey(ms) == (if m.BackendKeyData? then Some(CancelKey(m.processId, m.secretKey)) else LatestKey(before))
      && LatestStatus(ms) == (if m.ReadyForQuery? then Some(m.status) else LatestStatus(before))
      && Carried(ms) == Carried(before)
           + (if m.CommandComplete? then TaggedWith(NoticesOf(AsyncLog(before)), Commands(before)) else [])
  {
    assert (before + [m])[..|before + [m]| - 1] == before;
  }

  lemma CommandsSnoc(before: seq<BackendMessage>, m: BackendMessage)
    ensures Commands(before + [m]) == Commands(before) + (if m.CommandComplete? then 1 else 0)
  {
    assert (before + [m])[..|before + [m]| - 1] == before;
  }

  lemma LogSnoc(before: seq<BackendMessage>, m: BackendMessage)
    ensures AsyncLog(before + [m]) ==
      match EventOf(m, Commands(before))
      case None => AsyncLog(before)
      case Some(e) => AsyncLog(before) + [OrderedEvent(|AsyncLog(before)|, Commands(before), e)]
  {
    assert (before + [m])[..|before + [m]| - 1] == before;
  }

  lemma EventSnoc(log: seq<OrderedEvent>, e: OrderedEvent)
    ensures NoticesOf(log + [e]) == NoticesOf(log) + (if e.event.NoticeEvent? then [e.event.notice] else [])
    ensures StatusesOf(log + [e]) == StatusesOf(log) + (if e.event.StatusEvent? then [e.event.status] else [])
    ensures NotificationsOf(log + [e]) ==
      NotificationsOf(log) + (if e.event.NotificationEvent? then [e.event.notification] else [])
  {
    assert (log + [e])[..|log + [e]| - 1] == log;
  }

  /** What one more message adds to the logs. */
  lemma LogsSnoc(before: seq<BackendMessage>, m: BackendMessage)
    ensures var log, log' := AsyncLog(before), AsyncLog(before + [m]);
      && NoticesOf(log') ==
        NoticesOf(log) + (if m.NoticeResponse? then [TaggedNotice(Commands(before), m.notice)] else [])
      && StatusesOf(log') == StatusesOf(log) + (if m.ParameterStatus? then [Status(m.parameter, m.setting)] else [])
      && NotificationsOf(log') == NotificationsOf(log)
           + (if m.NotificationResponse? then [Notification(m.notifier, m.channel, m.payload)] else [])
  {
    LogSnoc(before, m);
    match EventOf(m, Commands(before))
    case None =>
    case Some(e) => EventSnoc(AsyncLog(before), OrderedEvent(|AsyncLog(before)|, Commands(before), e));
  }

  lemma TaggedSnoc(ns: seq<TaggedNotice>, n: TaggedNotice, command: nat)
    ensures TaggedWith(ns + [n], command) == TaggedWith(ns, command) + (if n.command == command then [n] else [])
  {
    assert (ns + [n])[..|ns + [n]| - 1] == ns;
  }

  /** The notices of the current command, one message later. */
  lemma CurrentSnoc(before: seq<BackendMessage>, m: BackendMessage)
    ensures var ms := before + [m];
      var ns := NoticesOf(AsyncLog(before));
      TaggedWith(NoticesOf(AsyncLog(ms)), Commands(ms)) ==
        if m.CommandComplete? then []
        else
          TaggedWith(ns, Commands(before))
          + (if m.NoticeResponse? then [TaggedNotice(Commands(before), m.notice)] else [])
  {
    hide *;
    CommandsSnoc(before, m);
    LogsSnoc(before, m);
    var ns := NoticesOf(AsyncLog(before));
    if m.CommandComplete? {
      NoticesAreOld(before);
      NoneTagged(ns, Commands(before) + 1);
      assert ns + [] == ns;
    } else if m.NoticeResponse? {
      TaggedSnoc(ns, TaggedNotice(Commands(before), m.notice), Commands(before));
    } else {
      assert ns + [] == ns;
    }
  }

  /** Every notice is handed over exactly once, with its own command, in order; what is not handed
      over yet belongs to the current command. */
  lemma {:induction false} NoticesAreConserved(ms: seq<BackendMessage>)
    ensures Carried(ms) + TaggedWith(NoticesOf(AsyncLog(ms)), Commands(ms)) == NoticesOf(AsyncLog(ms))
  {
    if ms != [] {
      var before, m := ms[..|ms| - 1], ms[|ms| - 1];
      assert ms == before + [m];
      NoticesAreConserved(before);
      hide Commands, AsyncLog, NoticesOf, TaggedWith, Carried;
      Snoc(before, m);
      LogsSnoc(before, m);
      CurrentSnoc(before, m);
      var c, t, ns := Carried(before), TaggedWith(NoticesOf(AsyncLog(before)), Commands(before)),
        NoticesOf(AsyncLog(before));
      Regroup(c, t, ns, if m.NoticeResponse? then [TaggedNotice(Commands(before), m.notice)] else []);
    }
  }

  lemma Regroup<T>(c: seq<T>, t: seq<T>, ns: seq<T>, n: seq<T>)
    requires c + t == ns
    ensures (c + t) + [] == ns + [] && (c + []) + (t + n) == ns + n
  {
    assert (c + []) + (t + n) == (c + t) + n;
  }

  /** Everything one more message changes, kind by kind. */
  lemma Advance(before: seq<BackendMessage>, m: BackendMessage)
    ensures var ms, log, log' := before + [m], AsyncLog(before), AsyncLog(before + [m]);
      var event := EventOf(m, Commands(before));
      && Commands(ms) == Commands(before) + (if m.CommandComplete? then 1 else 0) && Commands(before) <= |before|
        && |log| <= |before|
      && Parameters(ms) ==
        (if m.ParameterStatus? then Parameters(before)[m.parameter := m.setting] else Parameters(before))
      && Baseline(ms) == (if Baseline(before).Some? then Baseline(before)
        else if m.ReadyForQuery? then Some(Parameters(before)) else None)
      && Changed(ms) == (if m.ParameterStatus? then Baseline(ms).Some? && Baseline(ms).value != Parameters(ms)
        else Changed(before))
      && (Changed(before) ==> Baseline(before).Some?)
      && LatestKey(ms) == (if m.BackendKeyData? then Some(CancelKey(m.processId, m.secretKey)) else LatestKey(before))
      && LatestStatus(ms) == (if m.ReadyForQuery? then Some(m.status) else LatestStatus(before))
      && log' == (if event.None? then log else log + [OrderedEvent(|log|, Commands(before), event.value)])
      && (if m.NoticeResponse? then NoticesOf(log') == NoticesOf(log) + [TaggedNotice(Commands(before), m.notice)]
          else NoticesOf(log') == NoticesOf(log))
      && (if m.ParameterStatus? then StatusesOf(log') == StatusesOf(log) + [Status(m.parameter, m.setting)]
          else StatusesOf(log') == StatusesOf(log))
      && (if m.NotificationResponse?
        then NotificationsOf(log') == NotificationsOf(log) + [Notification(m.notifier, m.channel, m.payload)]
          else NotificationsOf(log') == NotificationsOf(log))
      && TaggedWith(NoticesOf(log'), Commands(ms)) ==
           (if m.CommandComplete? then []
            else if m.NoticeResponse?
              then TaggedWith(NoticesOf(log), Commands(before)) + [TaggedNotice(Commands(before), m.notice)]
            else TaggedWith(NoticesOf(log), Commands(before)))
  {
    hide Commands, Parameters, Baseline, AsyncLog, NoticesOf, StatusesOf, NotificationsOf, TaggedWith, LatestKey,
      LatestStatus, Carried;
    LogIsSequenced(before);
    Snoc(before, m);
    LogSnoc(before, m);
    LogsSnoc(before, m);
    CurrentSnoc(before, m);
  }

  /** `queue` is `log` without its first `popped` entries. */
  ghost predicate Suffix<T>(queue: seq<T>, log: seq<T>, popped: nat) {
    popped <= |log| && queue == log[popped..]
  }

  lemma SuffixSnoc<T>(queue: seq<T>, log: seq<T>, popped: nat, x: T)
    requires Suffix(queue, log, popped)
    ensures Suffix(queue + [x], log + [x], popped)
  {
  }

  /* ---------- what has to be kept up to date ---------- */

  /** The fields of the demultiplexer, and how much of each queue was already popped. */
  datatype View = View(command: nat, pendingNotices: seq<TaggedNotice>, notices: seq<TaggedNotice>,
                       notifications: seq<Notification>, parameterStatuses: seq<Status>, asyncEvents: seq<OrderedEvent>,
                       nextSequence: nat, parameters: map<Bytes, Bytes>, startupParameters: Option<map<Bytes, Bytes>>,
                       parametersChanged: bool, cancelKey: Option<CancelKey>,
                       transactionStatus: Option<TransactionStatus>,
                       poppedNotices: nat, poppedNotifications: nat, poppedStatuses: nat, poppedEvents: nat)

  /** Each field is what the history gives; each queue is what is left of its log. */
  ghost predicate Keeps(v: View, history: seq<BackendMessage>) {
    var log := AsyncLog(history);
    && |history| < U64_MAX
    && v.command == Commands(history)
    && v.nextSequence == |log|
    && v.parameters == Parameters(history)
    && v.startupParameters == Baseline(history)
    && v.parametersChanged == Changed(history)
    && v.cancelKey == LatestKey(history)
    && v.transactionStatus == LatestStatus(history)
    && v.pendingNotices == TaggedWith(NoticesOf(log), v.command)
    && Suffix(v.asyncEvents, log, v.poppedEvents)
    && Suffix(v.notices, NoticesOf(log), v.poppedNotices)
    && Suffix(v.notifications, NotificationsOf(log), v.poppedNotifications)
    && Suffix(v.parameterStatuses, StatusesOf(log), v.poppedStatuses)
  }

  /** What only a session message changes, and what was popped, is as it was. */
  predicate SameSession(v: View, w: View) {
    && w.command == v.command && w.startupParameters == v.startupParameters
    && w.cancelKey == v.cancelKey && w.transactionStatus == v.transactionStatus
    && w.poppedNotices == v.poppedNotices && w.poppedNotifications == v.poppedNotifications
    && w.poppedStatuses == v.poppedStatuses && w.poppedEvents == v.poppedEvents
  }

  /** One more entry of the common log. */
  predicate Pushed(v: View, w: View, event: AsyncEvent) {
    && w.asyncEvents == v.asyncEvents + [OrderedEvent(v.nextSequence, v.command, event)]
    && w.nextSequence == SaturatingSucc(v.nextSequence)
  }

  lemma NoticeKeeps(v: View, w: View, history: seq<BackendMessage>, fields: seq<Diagnostic>)
    requires Keeps(v, history) && |history| + 1 < U64_MAX
    requires SameSession(v, w) && Pushed(v, w, NoticeEvent(TaggedNotice(v.command, fields)))
    requires w.pendingNotices == v.pendingNotices + [TaggedNotice(v.command, fields)]
    requires w.notices == v.notices + [TaggedNotice(v.command, fields)]
    requires w.notifications == v.notifications && w.parameterStatuses == v.parameterStatuses
    requires w.parameters == v.parameters && w.parametersChanged == v.parametersChanged
    ensures Keeps(w, history + [NoticeResponse(fields)])
  {
    hide Commands, Parameters, Baseline, Changed, AsyncLog, NoticesOf, StatusesOf, NotificationsOf, TaggedWith;
    hide LatestKey, LatestStatus, Suffix;
    Advance(history, NoticeResponse(fields));
    var notice, log := TaggedNotice(v.command, fields), AsyncLog(history);
    SuffixSnoc(v.notices, NoticesOf(log), v.poppedNotices, notice);
    SuffixSnoc(v.asyncEvents, log, v.poppedEvents, OrderedEvent(v.nextSequence, v.command, NoticeEvent(notice)));
  }

  lemma StatusKeeps(v: View, w: View, history: seq<BackendMessage>, name: Bytes, value: Bytes)
    requires Keeps(v, history) && |history| + 1 < U64_MAX
    requires SameSession(v, w) && Pushed(v, w, StatusEvent(Status(name, value)))
    requires w.pendingNotices == v.pendingNotices && w.notices == v.notices && w.notifications == v.notifications
    requires w.parameterStatuses == v.parameterStatuses + [Status(name, value)]
      && w.parameters == v.parameters[name := value]
    requires w.parametersChanged ==
      if v.startupParameters.Some? then w.parameters != v.startupParameters.value else v.parametersChanged
    ensures Keeps(w, history + [ParameterStatus(name, value)])
  {
    hide Commands, Parameters, Baseline, Changed, AsyncLog, NoticesOf, StatusesOf, NotificationsOf, TaggedWith;
    hide LatestKey, LatestStatus, Suffix;
    Advance(history, ParameterStatus(name, value));
    var status, log := Status(name, value), AsyncLog(history);
    SuffixSnoc(v.parameterStatuses, StatusesOf(log), v.poppedStatuses, status);
    SuffixSnoc(v.asyncEvents, log, v.poppedEvents, OrderedEvent(v.nextSequence, v.command, StatusEvent(status)));
  }

  lemma NotificationKeeps(v: View, w: View, history: seq<BackendMessage>, process: U32, channel: Bytes, payload: Bytes)
    requires Keeps(v, history) && |history| + 1 < U64_MAX
    requires SameSession(v, w) && Pushed(v, w, NotificationEvent(Notification(process, channel, payload)))
    requires w.notifications == v.notifications + [Notification(process, channel, payload)]
    requires w.pendingNotices == v.pendingNotices && w.notices == v.notices
      && w.parameterStatuses == v.parameterStatuses
    requires w.parameters == v.parameters && w.parametersChanged == v.parametersChanged
    ensures Keeps(w, history + [NotificationResponse(process, channel, payload)])
  {
    hide Commands, Parameters, Baseline, Changed, AsyncLog, NoticesOf, StatusesOf, NotificationsOf, TaggedWith;
    hide LatestKey, LatestStatus, Suffix;
    Advance(history, NotificationResponse(process, channel, payload));
    var n, log := Notification(process, channel, payload), AsyncLog(history);
    SuffixSnoc(v.notifications, NotificationsOf(log), v.poppedNotifications, n);
    SuffixSnoc(v.asyncEvents, log, v.poppedEvents, OrderedEvent(v.nextSequence, v.command, NotificationEvent(n)));
  }

  predicate ReachesSession(m: BackendMessage) {
    !m.NoticeResponse? && !m.ParameterStatus? && !m.NotificationResponse?
  }

  /** Logs, parameters and what was popped are as they were. */
  predicate SameLogs(v: View, w: View) {
    && w.notices == v.notices && w.notifications == v.notifications && w.parameterStatuses == v.parameterStatuses
    && w.asyncEvents == v.asyncEvents && w.nextSequence == v.nextSequence
    && w.parameters == v.parameters && w.parametersChanged == v.parametersChanged
    && w.poppedNotices == v.poppedNotices && w.poppedNotifications == v.poppedNotifications
    && w.poppedStatuses == v.poppedStatuses && w.poppedEvents == v.poppedEvents
  }

  lemma SessionKeeps(v: View, w: View, history: seq<BackendMessage>, m: BackendMessage)
    requires Keeps(v, history) && |history| + 1 < U64_MAX && ReachesSession(m) && SameLogs(v, w)
    requires w.cancelKey == if m.BackendKeyData? then Some(CancelKey(m.processId, m.secretKey)) else v.cancelKey
    requires w.transactionStatus == if m.ReadyForQuery? then Some(m.status) else v.transactionStatus
    requires w.startupParameters ==
      if m.ReadyForQuery? && v.startupParameters.None? then Some(v.parameters) else v.startupParameters
    requires w.pendingNotices == if m.CommandComplete? then [] else v.pendingNotices
    requires w.command == if m.CommandComplete? then SaturatingSucc(v.command) else v.command
    ensures Keeps(w, history + [m])
  {
    hide Commands, Parameters, Baseline, Changed, AsyncLog, NoticesOf, StatusesOf, NotificationsOf, TaggedWith;
    hide LatestKey, LatestStatus, Suffix;
    Advance(history, m);
  }

  /** What the session is given, in terms of the fields. */
  lemma ItemsFromFields(v: View, history: seq<BackendMessage>, m: BackendMessage)
    requires Keeps(v, history)
    ensures ItemFor(history, m) ==
      if !ReachesSession(m) then None
      else if m.ReadyForQuery? then Some(ReadyItem(m.status, v.parametersChanged))
      else if m.CommandComplete? then Some(CompleteItem(m.tag, v.command, v.pendingNotices))
      else Some(Item(m))
  {
  }

  /* ---------- the demultiplexer ---------- */

  class Demux {
    var command: nat
    var pendingNotices: seq<TaggedNotice>
    var notices: seq<TaggedNotice>
    var notifications: seq<Notification>
    var parameterStatuses: seq<Status>
    var asyncEvents: seq<OrderedEvent>
    var nextSequence: nat
    var parameters: map<Bytes, Bytes>
    var startupParameters: Option<map<Bytes, Bytes>>
    var parametersChanged: bool
    var cancelKey: Option<CancelKey>
    var transactionStatus: Option<TransactionStatus>

    /** Everything routed so far, and how much of each queue was already popped. */
    ghost var history: seq<BackendMessage>
    ghost var poppedNotices: nat
    ghost var poppedNotifications: nat
    ghost var poppedStatuses: nat
    ghost var poppedEvents: nat

    ghost function Fields(): View
      reads this
    {
      View(command, pendingNotices, notices, notifications, parameterStatuses, asyncEvents, nextSequence, parameters,
           startupParameters, parametersChanged, cancelKey, transactionStatus,
           poppedNotices, poppedNotifications, poppedStatuses, poppedEvents)
    }

    ghost predicate Valid()
      reads this
    {
      Keeps(Fields(), history)
    }

    constructor ()
      ensures Valid() && history == []
    {
      command, nextSequence, parametersChanged := 0, 0, false;
      pendingNotices, notices, notifications, parameterStatuses, asyncEvents := [], [], [], [], [];
      parameters, startupParameters, cancelKey, transactionStatus := map[], None, None, None;
      history, poppedNotices, poppedNotifications, poppedStatuses, poppedEvents := [], 0, 0, 0, 0;
    }

    method PushAsync(event: AsyncEvent)
      modifies this`asyncEvents, this`nextSequence
      ensures asyncEvents == old(asyncEvents) + [OrderedEvent(old(nextSequence), command, event)]
      ensures nextSequence == SaturatingSucc(old(nextSequence))
    {
      var sequence := nextSequence;
      nextSequence := SaturatingSucc(nextSequence);
      asyncEvents := asyncEvents + [OrderedEvent(sequence, command, event)];
    }

    /** Routes one message: the bookkeeping stays what the history gives, and the session receives
        exactly what the history prescribes. */
    method Route(m: BackendMessage) returns (item: Option<SessionItem>)
      requires Valid() && |history| + 1 < U64_MAX
      modifies this
      ensures Valid() && history == old(history) + [m]
      ensures item == ItemFor(old(history), m)
    {
      ItemsFromFields(Fields(), history, m);
      hide Keeps, ItemFor;
      if m.NoticeResponse? {
        RouteNotice(m.notice);
        item := None;
      } else if m.ParameterStatus? {
        RouteStatus(m.parameter, m.setting);
        item := None;
      } else if m.NotificationResponse? {
        RouteNotification(m.notifier, m.channel, m.payload);
        item := None;
      } else if m.BackendKeyData? {
        item := RouteKey(m);
      } else if m.ReadyForQuery? {
        item := RouteReady(m);
      } else if m.CommandComplete? {
        item := RouteComplete(m);
      } else {
        item := RouteSession(m);
      }
    }

    method NoteNotice(notice: TaggedNotice)
      modifies this`pendingNotices, this`notices
      ensures pendingNotices == old(pendingNotices) + [notice] && notices == old(notices) + [notice]
    {
      pendingNotices := pendingNotices + [notice];
      notices := notices + [notice];
    }

    method RouteNotice(fields: seq<Diagnostic>)
      requires Valid() && |history| + 1 < U64_MAX
      modifies this
      ensures Valid() && history == old(history) + [NoticeResponse(fields)]
    {
      hide Keeps;
      ghost var v := Fields();
      var notice := TaggedNotice(command, fields);
      NoteNotice(notice);
      PushAsync(NoticeEvent(notice));
      NoticeKeeps(v, Fields(), history, fields);
      history := history + [NoticeResponse(fields)];
    }

    method NoteStatus(name: Bytes, value: Bytes)
      modifies this`parameters, this`parameterStatuses, this`parametersChanged
      ensures parameters == old(parameters)[name := value]
        && parameterStatuses == old(parameterStatuses) + [Status(name, value)]
      ensures parametersChanged ==
        if startupParameters.Some? then parameters != startupParameters.value else old(parametersChanged)
    {
      parameters := parameters[name := value];
      parameterStatuses := parameterStatuses + [Status(name, value)];
      if startupParameters.Some? { parametersChanged := parameters != startupParameters.value; }
    }

    method RouteStatus(name: Bytes, value: Bytes)
      requires Valid() && |history| + 1 < U64_MAX
      modifies this
      ensures Valid() && history == old(history) + [ParameterStatus(name, value)]
    {
      hide Keeps;
      ghost var v := Fields();
      NoteStatus(name, value);
      PushAsync(StatusEvent(Status(name, value)));
      StatusKeeps(v, Fields(), history, name, value);
      history := history + [ParameterStatus(name, value)];
    }

    method RouteNotification(process: U32, channel: Bytes, payload: Bytes)
      requires Valid() && |history| + 1 < U64_MAX
      modifies this
      ensures Valid() && history == old(history) + [NotificationResponse(process, channel, payload)]
    {
      hide Keeps;
      ghost var v := Fields();
      notifications := notifications + [Notification(process, channel, payload)];
      PushAsync(NotificationEvent(Notification(process, channel, payload)));
      NotificationKeeps(v, Fields(), history, process, channel, payload);
      history := history + [NotificationResponse(process, channel, payload)];
    }

    method RouteKey(m: BackendMessage) returns (item: Option<SessionItem>)
      requires Valid() && |history| + 1 < U64_MAX && m.BackendKeyData?
      modifies this
      ensures Valid() && history == old(history) + [m]
      ensures item == Some(Item(m))
    {
      ghost var v := Fields();
      hide Keeps;
      cancelKey := Some(CancelKey(m.processId, m.secretKey));
      item := Some(Item(m));
      SessionKeeps(v, Fields(), history, m);
      history := history + [m];
    }

    /** The first ReadyForQuery fixes the baseline. */
    method NoteReady(status: TransactionStatus)
      modifies this`transactionStatus, this`startupParameters
      ensures transactionStatus == Some(status)
      ensures startupParameters == if old(startupParameters).None? then Some(parameters) else old(startupParameters)
    {
      transactionStatus := Some(status);
      if startupParameters.None? { startupParameters := Some(parameters); }
    }

    method RouteReady(m: BackendMessage) returns (item: Option<SessionItem>)
      requires Valid() && |history| + 1 < U64_MAX && m.ReadyForQuery?
      modifies this
      ensures Valid() && history == old(history) + [m]
      ensures item == Some(ReadyItem(m.status, old(parametersChanged)))
    {
      ghost var v := Fields();
      hide Keeps;
      NoteReady(m.status);
      item := Some(ReadyItem(m.status, parametersChanged));
      SessionKeeps(v, Fields(), history, m);
      history := history + [m];
    }

    method NoteComplete()
      modifies this`pendingNotices, this`command
      ensures pendingNotices == [] && command == SaturatingSucc(old(command))
    {
      pendingNotices := [];
      command := SaturatingSucc(command);
    }

    /** A completion takes the notices of its command along. */
    method RouteComplete(m: BackendMessage) returns (item: Option<SessionItem>)
      requires Valid() && |history| + 1 < U64_MAX && m.CommandComplete?
      modifies this
      ensures Valid() && history == old(history) + [m]
      ensures item == Some(CompleteItem(m.tag, old(command), old(pendingNotices)))
    {
      ghost var v := Fields();
      hide Keeps;
      item := Some(CompleteItem(m.tag, command, pendingNotices));
      NoteComplete();
      SessionKeeps(v, Fields(), history, m);
      history := history + [m];
    }

    /** The messages that only reach the session. */
    method RouteSession(m: BackendMessage) returns (item: Option<SessionItem>)
      requires Valid() && |history| + 1 < U64_MAX && ReachesSession(m) && !m.BackendKeyData? && !m.ReadyForQuery?
        && !m.CommandComplete?
      modifies this
      ensures Valid() && history == old(history) + [m]
      ensures item == Some(Item(m))
    {
      ghost var v := Fields();
      hide Keeps;
      item := Some(Item(m));
      SessionKeeps(v, Fields(), history, m);
      history := history + [m];
    }

    method PopNotification() returns (n: Option<Notification>)
      requires Valid()
      modifies this`notifications, this`poppedNotifications
      ensures Valid()
      ensures var all := NotificationsOf(AsyncLog(history));
        if old(poppedNotifications) == |all| then n == None && poppedNotifications == old(poppedNotifications)
        else n == Some(all[old(poppedNotifications)]) && poppedNotifications == old(poppedNotifications) + 1
    {
      hide Commands, Parameters, Baseline, Changed, AsyncLog, NoticesOf, StatusesOf, NotificationsOf, TaggedWith,
        LatestKey, LatestStatus;
      if notifications == [] { return None; }
      n := Some(notifications[0]);
      notifications := notifications[1..];
      poppedNotifications := poppedNotifications + 1;
    }

    method PopNotice() returns (n: Option<TaggedNotice>)
      requires Valid()
      modifies this`notices, this`poppedNotices
      ensures Valid()
      ensures var all := NoticesOf(AsyncLog(history));
        if old(poppedNotices) == |all| then n == None && poppedNotices == old(poppedNotices)
        else n == Some(all[old(poppedNotices)]) && poppedNotices == old(poppedNotices) + 1
    {
      hide Commands, Parameters, Baseline, Changed, AsyncLog, NoticesOf, StatusesOf, NotificationsOf, TaggedWith,
        LatestKey, LatestStatus;
      if notices == [] { return None; }
      n := Some(notices[0]);
      notices := notices[1..];
      poppedNotices := poppedNotices + 1;
    }

    method PopParameterStatus() returns (s: Option<Status>)
      requires Valid()
      modifies this`parameterStatuses, this`poppedStatuses
      ensures Valid()
      ensures var all := StatusesOf(AsyncLog(history));
        if old(poppedStatuses) == |all| then s == None && poppedStatuses == old(poppedStatuses)
        else s == Some(all[old(poppedStatuses)]) && poppedStatuses == old(poppedStatuses) + 1
    {
      hide Commands, Parameters, Baseline, Changed, AsyncLog, NoticesOf, StatusesOf, NotificationsOf, TaggedWith,
        LatestKey, LatestStatus;
      if parameterStatuses == [] { return None; }
      s := Some(parameterStatuses[0]);
      parameterStatuses := parameterStatuses[1..];
      poppedStatuses := poppedStatuses + 1;
    }

    method PopAsyncEvent() returns (e: Option<OrderedEvent>)
      requires Valid()
      modifies this`asyncEvents, this`poppedEvents
      ensures Valid()
      ensures var log := AsyncLog(history);
        if old(poppedEvents) == |log| then e == None && poppedEvents == old(poppedEvents)
        else e == Some(log[old(poppedEvents)]) && poppedEvents == old(poppedEvents) + 1
    {
      hide Commands, Parameters, Baseline, Changed, AsyncLog, NoticesOf, StatusesOf, NotificationsOf, TaggedWith,
        LatestKey, LatestStatus;
      if asyncEvents == [] { return None; }
      e := Some(asyncEvents[0]);
      asyncEvents := asyncEvents[1..];
      poppedEvents := poppedEvents + 1;
    }
  }
}
