/** The simulated container runtime (internal/runtime/sim.go). */
module Runtimes {
  import opened Order
  import opened Api

  // What the runtime holds for one assignment.
  datatype Task = Task(assignment: Assignment, phase: Phase, message: string)

  type Held = map<string, Task>

  // A status update on its way to the controller.
  datatype Report = Report(id: string, phase: Phase, message: string)

  const STARTED := "simulated runtime started assignment"
  const STOPPED := "stopped by agent"

  function Started(assignment: Assignment): Task { Task(assignment, Running, STARTED) }

  // Lower case, as far as the letters of "fail" are concerned: besides A to Z only
  // the dotted capital I has one of them as its lower case.
  function Lower(c: char): char {
    if 'A' <= c <= 'Z' then c - 'A' + 'a' else if c == '\U{0130}' then 'i' else c
  }

  function Lowered(s: string): string {
    seq(|s|, i requires 0 <= i < |s| => Lower(s[i]))
  }

  predicate Contains(s: string, part: string) {
    exists i | 0 <= i <= |s| :: part <= s[i..]
  }

  // A simulated job fails if some word of its command contains "fail", in any case.
  predicate ShouldFail(command: seq<string>) {
    exists word | word in command :: Contains(Lowered(word), "fail")
  }

  // A letter of "fail", small or capital.
  predicate Spells(c: char, letter: char) {
    match letter
    case 'f' => c == 'f' || c == 'F'
    case 'a' => c == 'a' || c == 'A'
    case 'i' => c == 'i' || c == 'I' || c == '\U{0130}'
    case 'l' => c == 'l' || c == 'L'
    case _ => false
  }

  predicate FailsAt(word: string, i: nat) {
    i + 4 <= |word| && Spells(word[i], 'f') && Spells(word[i + 1], 'a') && Spells(word[i + 2], 'i') && Spells(word[i + 3], 'l')
  }

  /** A command fails exactly if four letters in a row of one of its words spell "fail". */
  lemma ShouldFailExactly(command: seq<string>)
    ensures ShouldFail(command) <==> exists word, i: nat :: word in command && FailsAt(word, i)
  {
    forall word ensures Contains(Lowered(word), "fail") <==> exists i: nat :: FailsAt(word, i) { ContainsFail(word); }
    if word, i: nat :| word in command && FailsAt(word, i) { assert Contains(Lowered(word), "fail"); }
  }

  lemma ContainsFail(word: string)
    ensures Contains(Lowered(word), "fail") <==> exists i: nat :: FailsAt(word, i)
  {
    var s := Lowered(word);
    forall i: nat | i <= |word| ensures "fail" <= s[i..] <==> FailsAt(word, i) {
      if i + 4 <= |word| {
        assert s[i..][..4] == [s[i], s[i + 1], s[i + 2], s[i + 3]];
      }
    }
  }

  class SimTask {
    const assignment: Assignment
    var phase: Phase
    var message: string
    // The agent process that hears of this task: the last one that started or re-attached to it.
    var reporter: nat

    constructor (assignment: Assignment, reporter: nat)
      ensures Value() == Started(assignment) && this.reporter == reporter
    {
      this.assignment, this.phase, this.message, this.reporter := assignment, Running, STARTED, reporter;
    }

    function Value(): Task
      reads `phase, `message
    {
      Task(assignment, phase, message)
    }
  }

  class SimExecutor {
    var tasks: map<string, SimTask>

    // What was held after each Start and Stop.
    ghost var history: seq<Held>

    constructor ()
      ensures Valid() && tasks == map[] && fresh(this)
    {
      tasks := map[];
      history := [];
    }

    // Every assignment has a task of its own.
    ghost predicate Valid()
      reads this
    {
      forall i, j | i in tasks && j in tasks && i != j :: tasks[i] != tasks[j]
    }

    function Held(): Held
      reads `tasks, tasks.Values
    {
      map id | id in tasks :: tasks[id].Value()
    }

    lemma HeldAt(id: string)
      requires id in tasks
      ensures id in Held() && Held()[id] == tasks[id].Value()
    {
    }

    ghost method Note()
      modifies `history
      ensures history == old(history) + [Held()] && Held() == old(Held())
    {
      ghost var held := Held();
      history := history + [held];
      assert Held() == held;
    }

    /** Starts the assignment, or re-attaches to it: a task that is already there
        stays the same task. Returns what is reported through the new reporter. */
    method Start(assignment: Assignment, reporter: nat) returns (report: Report)
      requires Valid()
      modifies this, tasks.Values
      ensures Valid()
      ensures assignment.id in old(tasks) ==> tasks == old(tasks)
      ensures assignment.id !in old(tasks) ==>
                && assignment.id in tasks && fresh(tasks[assignment.id])
                && tasks == old(tasks)[assignment.id := tasks[assignment.id]]
      ensures Held() == if assignment.id in old(tasks) then old(Held()) else old(Held())[assignment.id := Started(assignment)]
      ensures tasks[assignment.id].reporter == reporter
      ensures forall id | id in old(tasks) && id != assignment.id :: tasks[id].reporter == old(tasks[id].reporter)
      ensures report == Report(assignment.id, tasks[assignment.id].phase, tasks[assignment.id].message)
      ensures history == old(history) + [Held()]
    {
      if assignment.id in tasks {
        tasks[assignment.id].reporter := reporter;
      } else {
        var task := new SimTask(assignment, reporter);
        tasks := tasks[assignment.id := task];
      }
      Note();
      report := Report(assignment.id, tasks[assignment.id].phase, tasks[assignment.id].message);
    }

    // A job's task reaches the end of its run; services run until stopped.
    method RunJob(id: string) returns (report: Report, reporter: nat)
      requires Valid() && id in tasks
      requires tasks[id].assignment.ownerKind == JobKind && !IsTerminalPhase(tasks[id].phase)
      modifies tasks[id]
      ensures Valid() && tasks == old(tasks) && reporter == tasks[id].reporter
      ensures forall i | i in tasks :: tasks[i].reporter == old(tasks[i].reporter)
      ensures report ==
        if exists word, i: nat :: word in tasks[id].assignment.template.command && FailsAt(word, i)
        then Report(id, Failed, "simulated job failed because command contains 'fail'")
        else Report(id, Succeeded, "simulated job completed")
      ensures Held() == old(Held())[id := old(Held()[id]).(phase := report.phase, message := report.message)]
    {
      hide ShouldFail, FailsAt;
      ShouldFailExactly(tasks[id].assignment.template.command);
      var phase, message := Succeeded, "simulated job completed";
      if ShouldFail(tasks[id].assignment.template.command) {
        phase, message := Failed, "simulated job failed because command contains 'fail'";
      }
      tasks[id].phase, tasks[id].message := phase, message;
      report, reporter := Report(id, phase, message), tasks[id].reporter;
    }

    /** Terminates a task and forgets it; one that had not finished is reported
        stopped, through the reporter it was given. */
    method Stop(id: string) returns (report: Option<Report>, reporter: nat)
      requires Valid()
      modifies this
      ensures Valid() && tasks == old(tasks) - {id} && Held() == old(Held()) - {id}
      ensures report == if id in old(tasks) && !IsTerminalPhase(old(tasks)[id].phase) then Some(Report(id, Stopped, STOPPED)) else None
      ensures id in old(tasks) ==> reporter == old(tasks)[id].reporter
      ensures history == old(history) + [Held()]
    {
      report, reporter := None, 0;
      if id in tasks {
        reporter := tasks[id].reporter;
        if !IsTerminalPhase(tasks[id].phase) { report := Some(Report(id, Stopped, STOPPED)); }
      }
      tasks := tasks - {id};
      Note();
    }

    method List() returns (ids: seq<string>)
      ensures IsListing(ids, tasks.Keys, StrLess)
    {
      ids := [];
      var rest := tasks.Keys;
      while rest != {}
        invariant rest <= tasks.Keys && Distinct(ids) && forall id :: id in ids <==> id in tasks.Keys - rest
        decreases rest
      {
        var id :| id in rest;
        assert id !in ids;
        ids := ids + [id];
        rest := rest - {id};
      }
      StrOrder();
      assert TotalOn(tasks.Keys, StrLess);
      SortLists(ids, StrLess);
      ids := Sort(ids, StrLess);
    }
  }
}
