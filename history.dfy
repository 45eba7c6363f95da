/**
 * The history page: the relative-day label of a saved record, the list
 * update of `saveToHistory` (skip a birth already listed, otherwise put the
 * record first and keep at most twenty), and the "current" record that
 * `loadHistory` builds from the last chart and form in storage. Storage reads
 * are inputs and the write is an output; the clock enters as the
 * millisecond difference between "now" and the date being labelled.
 */
module PaipanHistory {
  import opened Wrappers
  import opened Strings

  /** The birth form a chart was computed from. */
  datatype Form = Form(gender: string, calendar: string, birthDate: string, birthTime: string, birthplace: string)

  /** One history entry; the chart itself is opaque to this page. */
  datatype PaipanRecord<P> = PaipanRecord(id: string, form: Form, paipan: P, createdAt: string)

  /** The de-duplication key: date, time and place of birth (gender and calendar are not compared). */
  predicate SameBirth(a: Form, b: Form)
  {
    a.birthDate == b.birthDate && a.birthTime == b.birthTime && a.birthplace == b.birthplace
  }

  /** `history.some(...)`: some entry records the same birth as `item`. */
  predicate Listed<P>(history: seq<PaipanRecord<P>>, item: PaipanRecord<P>)
  {
    exists i :: 0 <= i < |history| && SameBirth(history[i].form, item.form)
  }

  const HistoryLimit: nat := 20
  /** One day in milliseconds, `1000 * 60 * 60 * 24`. */
  const DayMillis: int := 86400000

  /** `Math.floor(diff / DayMillis)`: the number of whole days in `diff`, rounded down for negative differences too. */
  function Days(diff: int): (d: int)
    ensures d * DayMillis <= diff < (d + 1) * DayMillis
  {
    diff / DayMillis
  }

  /**
   * `formatDate`: `diff` is "now" minus the date in milliseconds, `month` the
   * date's zero-based month and `date` its day of the month.
   */
  function FormatDate(diff: int, month: int, date: int): string
  {
    var days := Days(diff);
    if days == 0 then "今天"
    else if days == 1 then "昨天"
    else if days < 7 then IntToString(days) + "天前"
    else IntToString(month + 1) + "月" + IntToString(date) + "日"
  }

  /**
   * The label by the age of the date: today within the first day, yesterday
   * within the second, a count of days up to a week, and the calendar date
   * from a week on. A date in the future counts negative days.
   */
  lemma FormatDateBuckets(diff: int, month: int, date: int)
    ensures 0 <= diff < DayMillis ==> FormatDate(diff, month, date) == "今天"
    ensures DayMillis <= diff < 2 * DayMillis ==> FormatDate(diff, month, date) == "昨天"
    ensures 2 * DayMillis <= diff < 7 * DayMillis ==> FormatDate(diff, month, date) == NatToString(Days(diff)) + "天前"
    ensures diff < 0 ==> FormatDate(diff, month, date) == IntToString(Days(diff)) + "天前" && Days(diff) < 0
    ensures 7 * DayMillis <= diff ==> FormatDate(diff, month, date) == IntToString(month + 1) + "月" + IntToString(date) + "日"
  {
    var d := Days(diff);
    if 0 <= diff < DayMillis {
      assert d == 0;
    } else if DayMillis <= diff < 2 * DayMillis {
      assert d == 1;
    } else if 2 * DayMillis <= diff < 7 * DayMillis {
      assert 2 <= d < 7;
    } else if diff < 0 {
      assert d < 0;
    } else {
      assert d >= 7;
    }
  }

  /** A future date's label starts with a minus sign. */
  lemma FutureDateLabel(diff: int, month: int, date: int)
    requires diff < 0
    ensures FormatDate(diff, month, date)[0] == '-'
  {
    FormatDateBuckets(diff, month, date);
  }

  /**
   * `saveToHistory` on the stored list: unchanged when the birth is already
   * listed; otherwise the stamped record comes first, the old entries follow
   * in their order, and the list is cut to its first twenty.
   */
  function SavedHistory<P>(history: seq<PaipanRecord<P>>, item: PaipanRecord<P>, stamp: string): (r: seq<PaipanRecord<P>>)
    ensures Listed(history, item) ==> r == history
    ensures !Listed(history, item) ==>
      && |r| == (if |history| + 1 < HistoryLimit then |history| + 1 else HistoryLimit)
      && r[0] == item.(createdAt := stamp)
      && r[1..] == history[..|r| - 1]
  {
    if Listed(history, item) then history
    else
      var h := [item.(createdAt := stamp)] + history;
      assert h[1..] == history;
      if |h| > HistoryLimit then h[..HistoryLimit] else h
  }

  /** Saving the same record twice changes nothing the second time. */
  lemma SaveTwice<P>(history: seq<PaipanRecord<P>>, item: PaipanRecord<P>, stamp: string, stamp': string)
    ensures var once := SavedHistory(history, item, stamp);
      SavedHistory(once, item, stamp') == once
  {
    var once := SavedHistory(history, item, stamp);
    if !Listed(history, item) {
      assert SameBirth(once[0].form, item.form);
    }
  }

  /** Two records that differ only in gender or calendar are the same entry for the history. */
  lemma ListedIgnoresGenderAndCalendar<P>(history: seq<PaipanRecord<P>>, item: PaipanRecord<P>, gender: string, calendar: string)
    ensures Listed(history, item.(form := item.form.(gender := gender, calendar := calendar))) == Listed(history, item)
  {
    var other := item.(form := item.form.(gender := gender, calendar := calendar));
    if Listed(history, item) {
      var i :| 0 <= i < |history| && SameBirth(history[i].form, item.form);
      assert SameBirth(history[i].form, other.form);
    }
    if Listed(history, other) {
      var i :| 0 <= i < |history| && SameBirth(history[i].form, other.form);
      assert SameBirth(history[i].form, item.form);
    }
  }

  /** A list within the limit stays within it. */
  lemma SavedWithinLimit<P>(history: seq<PaipanRecord<P>>, item: PaipanRecord<P>, stamp: string)
    requires |history| <= HistoryLimit
    ensures |SavedHistory(history, item, stamp)| <= HistoryLimit
  {
  }

  /**
   * `saveToHistory(item)`. `stored` is the stored list (absent when there is
   * none), `elapsed` the milliseconds between the two clock reads of the
   * stamping and `month`/`date` the calendar date of that moment. Returns the
   * list written back (none when nothing is written) and the record after its
   * `createdAt` is set.
   */
  method SaveToHistory<P>(stored: Option<seq<PaipanRecord<P>>>, item: PaipanRecord<P>, elapsed: int, month: int, date: int)
    returns (written: Option<seq<PaipanRecord<P>>>, stamped: PaipanRecord<P>)
    ensures var history := if stored.Some? then stored.value else [];
      if Listed(history, item) then written == None && stamped == item
      else
        && stamped == item.(createdAt := FormatDate(elapsed, month, date))
        && written == Some(SavedHistory(history, item, stamped.createdAt))
  {
    var history := if stored.Some? then stored.value else [];
    var found := Listed(history, item);
    if !found {
      stamped := item.(createdAt := FormatDate(elapsed, month, date));
      history := [stamped] + history;
      if |history| > HistoryLimit {
        history := history[..HistoryLimit];
      }
      written := Some(history);
    } else {
      written := None;
      stamped := item;
    }
  }

  /** The record `loadHistory` shows as current: present exactly when both the last chart and the last form are stored. */
  function CurrentRecord<P>(lastPaipan: Option<P>, lastForm: Option<Form>): (r: Option<PaipanRecord<P>>)
    ensures r.Some? <==> lastPaipan.Some? && lastForm.Some?
    ensures r.Some? ==> r.value.id == "current" && r.value.createdAt == ""
    ensures r.Some? ==> r.value.form == lastForm.value && r.value.paipan == lastPaipan.value
  {
    if lastPaipan.Some? && lastForm.Some? then Some(PaipanRecord("current", lastForm.value, lastPaipan.value, ""))
    else None
  }

  /** The page data `loadHistory` sets. */
  datatype HistoryData<P> = HistoryData(currentPaipan: Option<PaipanRecord<P>>, historyList: seq<PaipanRecord<P>>)

  /** `loadHistory`: the current record and the stored list, empty when none is stored. */
  function LoadHistory<P>(lastPaipan: Option<P>, lastForm: Option<Form>, stored: Option<seq<PaipanRecord<P>>>): (r: HistoryData<P>)
    ensures r.currentPaipan == CurrentRecord(lastPaipan, lastForm)
    ensures stored.Some? ==> r.historyList == stored.value
    ensures stored.None? ==> r.historyList == []
  {
    HistoryData(CurrentRecord(lastPaipan, lastForm), if stored.Some? then stored.value else [])
  }
}
