/**
 * The dashboard's to-do list and pomodoro timer. The list operations are
 * the pure `map`/`filter` bodies of the handlers; the component's state
 * lives in `DashboardState`, whose methods are the handlers. A task id comes
 * from the clock in the source and is a parameter here.
 */
module Dashboard {
  import opened Wrappers
  import Text
  import Seqs

  datatype Task = Task(id: int, text: string, completed: bool)

  datatype TaskFilter = All | Completed | Incomplete

  /** 25 minutes, the timer's starting value in seconds. */
  const PomodoroSeconds: nat := 25 * 60

  /** The `toggleTask` map: flip `completed` of every task with that id. */
  function ToggleCompleted(tasks: seq<Task>, id: int): (r: seq<Task>)
    ensures |r| == |tasks|
    ensures forall i :: 0 <= i < |tasks| ==>
      r[i].id == tasks[i].id && r[i].text == tasks[i].text
      && r[i].completed == (if tasks[i].id == id then !tasks[i].completed else tasks[i].completed)
  {
    if tasks == [] then []
    else
      var t := tasks[0];
      [if t.id == id then t.(completed := !t.completed) else t] + ToggleCompleted(tasks[1..], id)
  }

  /** Toggling the same id twice gives back the list. */
  lemma ToggleCompletedTwice(tasks: seq<Task>, id: int)
    ensures ToggleCompleted(ToggleCompleted(tasks, id), id) == tasks
  {
    var r := ToggleCompleted(ToggleCompleted(tasks, id), id);
    assert forall i :: 0 <= i < |tasks| ==> r[i] == tasks[i];
  }

  /** The `deleteTask` filter: no task with the id is left, and an unknown id changes nothing. */
  function RemoveTask(tasks: seq<Task>, id: int): (r: seq<Task>)
    ensures forall t :: t in r ==> t in tasks && t.id != id
    ensures (forall t :: t in tasks ==> t.id != id) ==> r == tasks
  {
    var keep := (t: Task) => t.id != id;
    Seqs.FilterMembers(keep, tasks);
    if forall t :: t in tasks ==> t.id != id then
      Seqs.FilterAll(keep, tasks);
      Seqs.Filter(keep, tasks)
    else
      Seqs.Filter(keep, tasks)
  }

  /**
   * Deleting removes exactly those tasks that have the id: no such task is left,
   * every other task stays, in its order, and the count drops by the number
   * of tasks that had the id.
   */
  lemma RemoveTaskSpec(tasks: seq<Task>, id: int)
    ensures forall t :: t in RemoveTask(tasks, id) <==> t in tasks && t.id != id
    ensures Seqs.Subsequence(RemoveTask(tasks, id), tasks)
    ensures |RemoveTask(tasks, id)| + |Seqs.Filter((t: Task) => t.id == id, tasks)| == |tasks|
  {
    Seqs.FilterIsSubsequence((t: Task) => t.id != id, tasks);
    Seqs.FilterMembers((t: Task) => t.id != id, tasks);
    Seqs.FilterPartition((t: Task) => t.id != id, (t: Task) => t.id == id, tasks);
  }

  /** The `saveEditTask` map: every task with that id gets `text`. */
  function RenameTask(tasks: seq<Task>, id: int, text: string): (r: seq<Task>)
    ensures |r| == |tasks|
    ensures forall i :: 0 <= i < |tasks| ==>
      r[i].id == tasks[i].id && r[i].completed == tasks[i].completed
      && r[i].text == (if tasks[i].id == id then text else tasks[i].text)
  {
    if tasks == [] then []
    else
      var t := tasks[0];
      [if t.id == id then t.(text := text) else t] + RenameTask(tasks[1..], id, text)
  }

  /** Saving the same text twice is saving it once. */
  lemma RenameTaskIdempotent(tasks: seq<Task>, id: int, text: string)
    ensures RenameTask(RenameTask(tasks, id, text), id, text) == RenameTask(tasks, id, text)
  {
    var once := RenameTask(tasks, id, text);
    var twice := RenameTask(once, id, text);
    assert forall i :: 0 <= i < |tasks| ==> twice[i] == once[i];
  }

  /** Editing and toggling touch different fields, so their order does not matter. */
  lemma RenameToggleCommute(tasks: seq<Task>, id: int, other: int, text: string)
    ensures RenameTask(ToggleCompleted(tasks, other), id, text) == ToggleCompleted(RenameTask(tasks, id, text), other)
  {
    var a := RenameTask(ToggleCompleted(tasks, other), id, text);
    var b := ToggleCompleted(RenameTask(tasks, id, text), other);
    assert forall i :: 0 <= i < |tasks| ==> a[i] == b[i];
  }

  /** The predicate of `filteredTasks`: "all" shows every task, and each task is in exactly one of the other two views. */
  function Shows(filter: TaskFilter, t: Task): (b: bool)
    ensures filter == All ==> b
    ensures filter != All ==> (b <==> (filter == Completed) == t.completed)
  {
    match filter
    case Completed => t.completed
    case Incomplete => !t.completed
    case All => true
  }

  /** `filteredTasks`: a view shows only tasks of the list that its filter admits. */
  function FilterTasks(tasks: seq<Task>, filter: TaskFilter): (r: seq<Task>)
    ensures |r| <= |tasks|
    ensures forall t :: t in r ==> t in tasks && Shows(filter, t)
  {
    Seqs.FilterMembers((t: Task) => Shows(filter, t), tasks);
    Seqs.Filter((t: Task) => Shows(filter, t), tasks)
  }

  /**
   * Every view is an order-preserving subsequence; "all" is the list itself;
   * "completed" and "incomplete" split the list between them.
   */
  lemma FilterTasksSpec(tasks: seq<Task>, filter: TaskFilter)
    ensures Seqs.Subsequence(FilterTasks(tasks, filter), tasks)
    ensures FilterTasks(tasks, All) == tasks
    ensures |FilterTasks(tasks, Completed)| + |FilterTasks(tasks, Incomplete)| == |tasks|
    ensures multiset(FilterTasks(tasks, Completed)) + multiset(FilterTasks(tasks, Incomplete)) == multiset(tasks)
    ensures forall t :: t in FilterTasks(tasks, Completed) <==> t in tasks && t.completed
    ensures forall t :: t in FilterTasks(tasks, Incomplete) <==> t in tasks && !t.completed
  {
    Seqs.FilterIsSubsequence((t: Task) => Shows(filter, t), tasks);
    Seqs.FilterAll((t: Task) => Shows(All, t), tasks);
    Seqs.FilterMembers((t: Task) => Shows(Completed, t), tasks);
    Seqs.FilterMembers((t: Task) => Shows(Incomplete, t), tasks);
    Seqs.FilterPartition((t: Task) => Shows(Completed, t), (t: Task) => Shows(Incomplete, t), tasks);
  }

  /** `formatTime`: whole minutes, a colon, and the seconds padded to two digits. */
  function FormatTime(seconds: nat): (r: string)
    ensures |r| >= 4 && r[|r| - 3] == ':'
  {
    SecondsWidth(seconds % 60);
    Text.NatToString(seconds / 60) + ":" + Text.PadTwo(Text.NatToString(seconds % 60))
  }

  /** A number of seconds below 60 renders in at most two digits, so padding makes exactly two. */
  lemma SecondsWidth(n: nat)
    requires n < 60
    ensures |Text.NatToString(n)| <= 2
    ensures |Text.PadTwo(Text.NatToString(n))| == 2
  {
    var d := Text.NatToString(n);
    if n >= 10 {
      var q := n / 10;
      assert q < 10;
      assert |Text.NatToString(q)| == 1;
      assert d == Text.NatToString(q) + [Text.DigitChar(n % 10)];
      assert |d| == 2;
    } else {
      assert |d| == 1;
    }
  }

  /**
   * `r` is a time display that reads back as `mins` and `secs`: digits, a
   * colon three places from the end, then two digits, the first group
   * denoting `mins` and the second `secs`.
   */
  ghost predicate DisplaysAs(r: string, mins: nat, secs: nat)
  {
    var k := |r| - 3;
    k >= 1 && r[k] == ':'
    && (forall i :: 0 <= i < |r| && i != k ==> Text.IsDigit(r[i]))
    && Text.DigitsValue(r[..k]) == mins && Text.DigitsValue(r[k + 1..]) == secs
  }

  /** The rendering `r` of `mins` and `secs` reads back as those two numbers. */
  lemma ReadsBack(mins: nat, secs: nat, r: string)
    requires secs < 60
    requires r == Text.NatToString(mins) + [':'] + Text.PadTwo(Text.NatToString(secs))
    ensures DisplaysAs(r, mins, secs)
  {
    var m := Text.NatToString(mins);
    var sec := Text.NatToString(secs);
    var p := Text.PadTwo(sec);
    SecondsWidth(secs);
    var k := |r| - 3;
    assert r[..k] == m;
    assert r[k + 1..] == p;
    Text.NatToStringRoundTrip(mins);
    Text.NatToStringRoundTrip(secs);
    if |sec| < 2 {
      assert p == ['0'] + sec;
      Text.LeadingZeroValue(sec);
    }
  }

  /**
   * Reading `FormatTime(s)` back gives the whole minutes and the remaining
   * seconds, so the seconds are below 60 and 60 * minutes + seconds is `s`.
   */
  lemma FormatTimeReadsBack(s: nat)
    ensures DisplaysAs(FormatTime(s), s / 60, s % 60)
  {
    ReadsBack(s / 60, s % 60, FormatTime(s));
  }

  /** Below ten minutes the display is the four characters of `m:ss`, and from ten minutes on it is longer. */
  lemma FormatTimeShort(s: nat)
    ensures s < 600 <==> |FormatTime(s)| == 4
  {
    SecondsWidth(s % 60);
  }

  /** The starting value shows as 25:00. */
  lemma FormatTimePomodoro()
    ensures FormatTime(PomodoroSeconds) == "25:00"
  {
    var two, five, zero := Text.DigitChar(2), Text.DigitChar(5), Text.DigitChar(0);
    assert two == '2' && five == '5' && zero == '0';
    assert PomodoroSeconds / 60 == 25 && PomodoroSeconds % 60 == 0;
    assert Text.NatToString(25) == Text.NatToString(2) + [five];
    assert Text.NatToString(25) == [two, five];
    assert Text.NatToString(0) == [zero];
    assert Text.PadTwo([zero]) == ['0', zero];
    assert FormatTime(PomodoroSeconds) == [two, five] + [':'] + ['0', zero];
  }

  class DashboardState {
    var tasks: seq<Task>
    var newTask: string
    var timeLeft: int
    var isActive: bool
    var editTaskId: Option<int>
    var editTaskText: string
    var filter: TaskFilter

    /** The timer never goes below zero or above its start, and never runs at zero. */
    ghost predicate Valid()
      reads this
    {
      0 <= timeLeft <= PomodoroSeconds && (timeLeft == 0 ==> !isActive)
    }

    constructor ()
      ensures Valid()
      ensures tasks == [] && newTask == "" && timeLeft == PomodoroSeconds && !isActive
      ensures editTaskId == None && editTaskText == "" && filter == All
    {
      tasks, newTask := [], "";
      timeLeft, isActive := PomodoroSeconds, false;
      editTaskId, editTaskText := None, "";
      filter := All;
    }

    /** The list shown under the current filter. */
    function FilteredTasks(): seq<Task>
      reads this
    {
      FilterTasks(tasks, filter)
    }

    method SetNewTask(text: string)
      modifies this`newTask
      ensures newTask == text
    {
      newTask := text;
    }

    /**
     * `addTask`: when the trimmed input is non-empty, append an incomplete
     * task with the trimmed text and clear the input; otherwise nothing.
     */
    method AddTask(freshId: int)
      modifies this`tasks, this`newTask
      ensures var text := Text.Trim(old(newTask));
        if text != [] then tasks == old(tasks) + [Task(freshId, text, false)] && newTask == ""
        else tasks == old(tasks) && newTask == old(newTask)
    {
      var text := Text.Trim(newTask);
      if text != [] {
        tasks := tasks + [Task(freshId, text, false)];
        newTask := "";
      }
    }

    method ToggleTask(id: int)
      modifies this`tasks
      ensures tasks == ToggleCompleted(old(tasks), id)
    {
      tasks := ToggleCompleted(tasks, id);
    }

    method DeleteTask(id: int)
      modifies this`tasks
      ensures tasks == RemoveTask(old(tasks), id)
    {
      tasks := RemoveTask(tasks, id);
    }

    method StartEditTask(id: int, text: string)
      modifies this`editTaskId, this`editTaskText
      ensures editTaskId == Some(id) && editTaskText == text
    {
      editTaskId, editTaskText := Some(id), text;
    }

    method SetEditTaskText(text: string)
      modifies this`editTaskText
      ensures editTaskText == text
    {
      editTaskText := text;
    }

    /** `saveEditTask`: the edited text, untrimmed, goes to every task with the id; the edit is cleared. */
    method SaveEditTask(id: int)
      modifies this`tasks, this`editTaskId, this`editTaskText
      ensures tasks == RenameTask(old(tasks), id, old(editTaskText))
      ensures editTaskId == None && editTaskText == ""
    {
      tasks := RenameTask(tasks, id, editTaskText);
      editTaskId, editTaskText := None, "";
    }

    method SetFilter(f: TaskFilter)
      modifies this`filter
      ensures filter == f
    {
      filter := f;
    }

    /**
     * `toggleTimer`, followed by the timer effect: the flag flips, except
     * that at zero the effect switches it straight back off.
     */
    method ToggleTimer()
      requires Valid()
      modifies this`isActive
      ensures Valid()
      ensures isActive == (!old(isActive) && timeLeft > 0)
    {
      isActive := !isActive;
      if timeLeft == 0 {
        isActive := false;
      }
    }

    /** `resetTimer`: back to 25:00, stopped. */
    method ResetTimer()
      modifies this`timeLeft, this`isActive
      ensures Valid()
      ensures timeLeft == PomodoroSeconds && !isActive
    {
      timeLeft, isActive := PomodoroSeconds, false;
    }

    /**
     * One second of the interval, which exists only while active with time
     * left: the time drops by one, and on reaching zero the effect stops the
     * timer. Otherwise nothing changes.
     */
    method Tick()
      requires Valid()
      modifies this`timeLeft, this`isActive
      ensures Valid()
      ensures if old(isActive) && old(timeLeft) > 0
        then timeLeft == old(timeLeft) - 1 && isActive == (timeLeft > 0)
        else timeLeft == old(timeLeft) && isActive == old(isActive)
    {
      if isActive && timeLeft > 0 {
        timeLeft := timeLeft - 1;
        if timeLeft == 0 {
          isActive := false;
        }
      }
    }
  }
}
