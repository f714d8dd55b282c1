/** The dashboard: a login gate, the current user, and today's tasks with their total learning time. */
module Dashboard {
  import opened Wrappers
  import opened Tasks
  import Session

  /** `tasks.filter(t => t.date === today)`. */
  function TodaysTasks(tasks: seq<Task>, today: string): (kept: seq<Task>)
    ensures |kept| <= |tasks|
    ensures forall t :: t in kept <==> t in tasks && t.date == today
    ensures forall t :: multiset(kept)[t] == if t.date == today then multiset(tasks)[t] else 0
    ensures kept == [] <==> forall i :: 0 <= i < |tasks| ==> tasks[i].date != today
  {
    if tasks == [] then []
    else
      assert tasks == [tasks[0]] + tasks[1..];
      var rest := TodaysTasks(tasks[1..], today);
      if tasks[0].date == today then [tasks[0]] + rest else rest
  }

  /** Filtering keeps the original order: it distributes over concatenation. */
  lemma {:induction false} TodaysTasksOfConcat(a: seq<Task>, b: seq<Task>, today: string)
    ensures TodaysTasks(a + b, today) == TodaysTasks(a, today) + TodaysTasks(b, today)
  {
    if a == [] {
      assert a + b == b;
    } else {
      assert (a + b)[1..] == a[1..] + b;
      TodaysTasksOfConcat(a[1..], b, today);
    }
  }

  /** The total learning time of a list. */
  function SumLearningTime(tasks: seq<Task>): int
  {
    if tasks == [] then 0 else tasks[0].learningTime + SumLearningTime(tasks[1..])
  }

  /** `tasks.reduce((sum, t) => sum + t.learningTime, acc)`: a left fold. */
  function ReduceLearningTime(acc: int, tasks: seq<Task>): int
    decreases tasks
  {
    if tasks == [] then acc else ReduceLearningTime(acc + tasks[0].learningTime, tasks[1..])
  }

  /** The fold started at `acc` adds the list's total learning time to `acc`. */
  lemma {:induction false} ReduceIsSum(acc: int, tasks: seq<Task>)
    ensures ReduceLearningTime(acc, tasks) == acc + SumLearningTime(tasks)
    decreases tasks
  {
    if tasks != [] {
      ReduceIsSum(acc + tasks[0].learningTime, tasks[1..]);
    }
  }

  /** With no negative learning time, today's total is between 0 and the total over all tasks. */
  lemma {:induction false} TodaysTotalIsBounded(tasks: seq<Task>, today: string)
    requires forall i :: 0 <= i < |tasks| ==> tasks[i].learningTime >= 0
    ensures 0 <= SumLearningTime(TodaysTasks(tasks, today)) <= SumLearningTime(tasks)
  {
    if tasks != [] {
      assert forall i :: 0 <= i < |tasks[1..]| ==> tasks[1..][i] == tasks[i + 1];
      TodaysTotalIsBounded(tasks[1..], today);
    }
  }

  /** No task dated today gives a total of 0. */
  lemma NoTaskTodayMeansZero(tasks: seq<Task>, today: string)
    requires forall i :: 0 <= i < |tasks| ==> tasks[i].date != today
    ensures ReduceLearningTime(0, TodaysTasks(tasks, today)) == 0
  {
  }

  /** Backend requests the dashboard issues. */
  datatype Fetch = FetchUser | FetchTasks

  class DashboardComponent {
    const auth: Session.AuthService
    var currentUser: Option<Session.User>
    var todaysTasks: seq<Task>
    var totalLearningTime: int
    /** Requests issued, oldest first. */
    var fetches: seq<Fetch>
    /** Router targets, oldest first. */
    var navigation: seq<string>

    constructor (auth: Session.AuthService)
      ensures this.auth == auth
      ensures currentUser == None && todaysTasks == [] && totalLearningTime == 0
      ensures fetches == [] && navigation == []
    {
      this.auth := auth;
      currentUser := None;
      todaysTasks := [];
      totalLearningTime := 0;
      fetches := [];
      navigation := [];
    }

    /**
     * `loadTodaysTasks`: fetches all tasks; on success keeps those dated
     * `today` and sums their learning time; on error changes nothing else.
     */
    method LoadTodaysTasks(tasks: Response<seq<Task>>, today: string)
      modifies this
      ensures fetches == old(fetches) + [FetchTasks]
      ensures currentUser == old(currentUser) && navigation == old(navigation)
      ensures tasks.Ok? ==> todaysTasks == TodaysTasks(tasks.body, today)
                            && totalLearningTime == SumLearningTime(todaysTasks)
      ensures tasks.Failed? ==> todaysTasks == old(todaysTasks) && totalLearningTime == old(totalLearningTime)
    {
      fetches := fetches + [FetchTasks];
      match tasks
      case Ok(all) =>
        todaysTasks := TodaysTasks(all, today);
        totalLearningTime := ReduceLearningTime(0, todaysTasks);
        ReduceIsSum(0, todaysTasks);
      case Failed(_) =>
    }

    /**
     * `ngOnInit`, for the value the `loggedIn` subject replays on
     * subscription: logged out navigates to `/login` and fetches nothing;
     * logged in fetches the user and, only if that succeeds, the tasks.
     */
    method NgOnInit(user: Response<Session.User>, tasks: Response<seq<Task>>, today: string)
      modifies this
      ensures !auth.loggedIn ==>
        && navigation == old(navigation) + ["/login"] && fetches == old(fetches)
        && currentUser == old(currentUser) && todaysTasks == old(todaysTasks)
        && totalLearningTime == old(totalLearningTime)
      ensures auth.loggedIn && user.Failed? ==>
        && fetches == old(fetches) + [FetchUser] && navigation == old(navigation)
        && currentUser == old(currentUser) && todaysTasks == old(todaysTasks)
        && totalLearningTime == old(totalLearningTime)
      ensures auth.loggedIn && user.Ok? ==>
        && fetches == old(fetches) + [FetchUser, FetchTasks] && navigation == old(navigation)
        && currentUser == Some(user.body)
        && (tasks.Ok? ==> todaysTasks == TodaysTasks(tasks.body, today)
                          && totalLearningTime == SumLearningTime(todaysTasks))
        && (tasks.Failed? ==> todaysTasks == old(todaysTasks) && totalLearningTime == old(totalLearningTime))
    {
      if !auth.loggedIn {
        navigation := navigation + ["/login"];
        return;
      }
      fetches := fetches + [FetchUser];
      match user
      case Ok(u) =>
        currentUser := Some(u);
        LoadTodaysTasks(tasks, today);
      case Failed(_) =>
    }

    /** `logout()`: the service's logout observable is never subscribed, so only the navigation happens. */
    method Logout()
      modifies this, auth, auth.storage
      ensures navigation == old(navigation) + ["/login"]
      ensures auth.storage.items == old(auth.storage.items) && auth.loggedIn == old(auth.loggedIn)
      ensures currentUser == old(currentUser) && todaysTasks == old(todaysTasks)
      ensures totalLearningTime == old(totalLearningTime) && fetches == old(fetches)
    {
      auth.Logout(None);
      navigation := navigation + ["/login"];
    }
  }
}
