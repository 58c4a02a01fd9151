/** `showMessage` and the auto-clear timers it schedules, over an abstract clock in
    milliseconds. A timer due at `t` fires at the first observation at or after `t`. */
module MessageBoard {
  import opened Results
  import opened DepositFlow

  /** The default `duration` of a success or error message. */
  const DefaultDuration: int := 3000

  /** What a timer sets the message to: `{ type: '', text: '' }`. */
  const Blank: Message := Message(NoMessage, "")

  /** The board as written: the message shown and the due times of every clear still
      scheduled. A new message never cancels an earlier timer. */
  datatype Board = Board(shown: Message, clearsAt: seq<int>)

  /** Whether some scheduled clear is due at `now`. */
  function AnyDue(clearsAt: seq<int>, now: int): (r: bool)
    ensures r <==> exists i :: 0 <= i < |clearsAt| && clearsAt[i] <= now
  {
    if |clearsAt| == 0 then false
    else clearsAt[0] <= now || AnyDue(clearsAt[1..], now)
  }

  /** The scheduled clears not yet due at `now`, in order. */
  function NotDue(clearsAt: seq<int>, now: int): (r: seq<int>)
    ensures forall t :: t in r <==> t in clearsAt && t > now
  {
    if |clearsAt| == 0 then []
    else (if clearsAt[0] > now then [clearsAt[0]] else []) + NotDue(clearsAt[1..], now)
  }

  /** The board at `now`: every due timer has fired and blanked the message. */
  function At(b: Board, now: int): (r: Board)
    ensures r.shown == (if exists i :: 0 <= i < |b.clearsAt| && b.clearsAt[i] <= now then Blank else b.shown)
    ensures forall t :: t in r.clearsAt <==> t in b.clearsAt && t > now
  {
    Board(if AnyDue(b.clearsAt, now) then Blank else b.shown, NotDue(b.clearsAt, now))
  }

  /** `showMessage(kind, text, duration)` at `now`, as written: the message replaces the shown
      one, and every kind but info adds a clear due `duration` later. The board passed in is
      the one observed at `now`. */
  function Show(b: Board, now: int, kind: MessageKind, text: string, duration: int): (r: Board)
    ensures r.shown == Message(kind, text)
    ensures kind == InfoMessage ==> r.clearsAt == b.clearsAt
    ensures kind != InfoMessage ==> r.clearsAt == b.clearsAt + [now + duration]
  {
    Board(Message(kind, text), if kind != InfoMessage then b.clearsAt + [now + duration] else b.clearsAt)
  }

  /** As written, a success or error message is gone by its own deadline at the latest. */
  lemma ShownNonInfoGoneByDeadline(b: Board, now: int, kind: MessageKind, text: string, duration: int, later: int)
    requires kind != InfoMessage
    requires later >= now + duration
    ensures At(Show(b, now, kind, text, duration), later).shown == Blank
  {
    var s := Show(b, now, kind, text, duration);
    assert s.clearsAt[|s.clearsAt| - 1] <= later;
  }

  /** As written, an info message can vanish although nothing replaced it: an error shown at
      0 ms (say "Please enter a valid amount") schedules a clear for 3000 ms; the user corrects the
      amount, and the "Building transaction..." shown at 1000 ms is blanked by it at 3000 ms. */
  lemma StaleClearBlanksInfo()
    ensures
      var b := Show(Board(Blank, []), 0, ErrorMessage, InvalidAmountMsg, DefaultDuration);
      var b' := Show(At(b, 1000), 1000, InfoMessage, BuildingMsg, DefaultDuration);
      At(b', 3000).shown == Blank
  {
    var b := Show(Board(Blank, []), 0, ErrorMessage, InvalidAmountMsg, DefaultDuration);
    assert b.clearsAt == [3000];
    var b' := Show(At(b, 1000), 1000, InfoMessage, BuildingMsg, DefaultDuration);
    assert b'.clearsAt[0] == 3000;
  }

  /** The intended board: at most one pending clear, the one of the message shown; a new
      message cancels the previous timer (`clearTimeout`) before scheduling its own. */
  datatype TimedBoard = TimedBoard(shown: Message, clearAt: Option<int>)

  function TimedAt(b: TimedBoard, now: int): TimedBoard {
    if b.clearAt.Some? && b.clearAt.value <= now then TimedBoard(Blank, None) else b
  }

  function TimedShow(b: TimedBoard, now: int, kind: MessageKind, text: string, duration: int): TimedBoard {
    TimedBoard(Message(kind, text), if kind != InfoMessage then Some(now + duration) else None)
  }

  /** A sequence of `showMessage` calls, each with the time it is made at. */
  datatype ShowCall = ShowCall(at: int, kind: MessageKind, text: string, duration: int)

  /** The intended board after a sequence of calls, starting blank. */
  function TimedReplay(calls: seq<ShowCall>): TimedBoard
    decreases |calls|
  {
    if |calls| == 0 then TimedBoard(Blank, None)
    else
      var last := calls[|calls| - 1];
      TimedShow(TimedAt(TimedReplay(calls[..|calls| - 1]), last.at), last.at, last.kind, last.text, last.duration)
  }

  /** What is on screen at `now` after the calls: whatever history preceded it, the last
      message stays if it is info, and otherwise until exactly its own deadline. */
  lemma {:induction false} TimedReplayShowsLast(calls: seq<ShowCall>, now: int)
    requires |calls| > 0 && now >= calls[|calls| - 1].at
    ensures
      var last := calls[|calls| - 1];
      TimedAt(TimedReplay(calls), now).shown ==
        if last.kind == InfoMessage || now < last.at + last.duration then Message(last.kind, last.text)
        else Blank
  {
    var last := calls[|calls| - 1];
    var b := TimedReplay(calls);
    assert b == TimedShow(TimedAt(TimedReplay(calls[..|calls| - 1]), last.at), last.at, last.kind, last.text, last.duration);
  }

  /** The same history as `StaleClearBlanksInfo`, on the intended board: the info message
      is still shown at 3000 ms and at any later time. */
  lemma TimedBoardKeepsInfo(later: int)
    requires later >= 1000
    ensures
      var calls := [ShowCall(0, ErrorMessage, InvalidAmountMsg, DefaultDuration),
                    ShowCall(1000, InfoMessage, BuildingMsg, DefaultDuration)];
      TimedAt(TimedReplay(calls), later).shown == Message(InfoMessage, BuildingMsg)
  {
    var calls := [ShowCall(0, ErrorMessage, InvalidAmountMsg, DefaultDuration),
                  ShowCall(1000, InfoMessage, BuildingMsg, DefaultDuration)];
    TimedReplayShowsLast(calls, later);
  }
}
