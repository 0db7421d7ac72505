/** The lead-automation engine: contact retrieval, interaction analysis and
    lead scoring over the lead store, and a bot object that owns a task list
    and the last-run time of each scheduled job. */
module CrmBot {
  import opened Seqs
  import opened SampleLeads

  /** The id `TASK<seconds>` that task creation builds from the clock. */
  datatype TaskId = TaskId(seconds: int)

  /** A follow-up task. `dueDate` is a day number; `createdAt` is the text of
      the creation timestamp. */
  datatype Task = Task(
    id: TaskId,
    title: string,
    description: string,
    dueDate: Day,
    assignedTo: string,
    status: string,
    createdAt: string)

  /** What the interaction analysis returns: the not-found record, holding
      only the error and the queried id, or the full analysis. */
  datatype Analysis =
    | AnalysisNotFound(error: string, contactId: string)
    | Analysis(
        contactId: string,
        name: string,
        company: string,
        priority: string,
        nextAction: string,
        lastContact: Day,
        daysSinceContact: int,
        engagementScore: int,
        recommendations: seq<string>,
        notes: string)

  /** What lead scoring returns: the not-found record, holding only the
      error (no id), or the score and its three components. */
  datatype ScoreReport =
    | ScoreNotFound(error: string)
    | LeadScore(
        contactId: string,
        name: string,
        company: string,
        totalScore: int,
        statusScore: int,
        industryScore: int,
        titleScore: int)

  /** A call that either returns or raises a KeyError naming a missing key. */
  datatype Outcome<+T> = Returned(value: T) | KeyErrorRaised(key: string)

  const NOT_FOUND := "Lead not found"

  /** The display name: first and last name joined by one space. */
  function FullName(l: Lead): (name: string)
    ensures |name| == |l.firstName| + 1 + |l.lastName|
    ensures name[..|l.firstName|] == l.firstName && name[|l.firstName|] == ' '
    ensures name[|l.firstName| + 1..] == l.lastName
  {
    l.firstName + " " + l.lastName
  }

  // ---------------------------------------------------------------------
  // Interaction analysis

  /** Qualified leads are the high-priority ones; all others are medium. */
  function Priority(status: string): (p: string)
    ensures p == "High" <==> status == "Qualified"
    ensures p == "High" || p == "Medium"
  {
    if status == "Qualified" then "High" else "Medium"
  }

  /** New leads get a demo; all others a follow-up call. */
  function NextAction(status: string): (a: string)
    ensures a == "Schedule demo" <==> status == "New"
    ensures a == "Schedule demo" || a == "Follow up call"
  {
    if status == "New" then "Schedule demo" else "Follow up call"
  }

  /** 100 less 5 per day since the last contact, never below 0. */
  function EngagementScore(daysSinceContact: int): (e: int)
    ensures e >= 0 && e >= 100 - 5 * daysSinceContact
    ensures e == 0 || e == 100 - 5 * daysSinceContact
    ensures daysSinceContact >= 0 ==> e <= 100
  {
    var raw := 100 - daysSinceContact * 5;
    if raw > 0 then raw else 0
  }

  /** Two recommendations, fixed by the status. */
  function Recommendations(status: string): (r: seq<string>)
    ensures |r| == 2
    ensures status == "New" ==> r == ["Send welcome email", "Schedule initial call"]
    ensures status == "Qualified" ==> r == ["Prepare proposal", "Schedule demo"]
    ensures status != "New" && status != "Qualified" ==>
      r == ["Follow up call", "Send relevant case studies"]
  {
    if status == "New" then ["Send welcome email", "Schedule initial call"]
    else if status == "Qualified" then ["Prepare proposal", "Schedule demo"]
    else ["Follow up call", "Send relevant case studies"]
  }

  /** The analysis of `lead`, queried as `contactId`, on day `today`. */
  function AnalyzeLead(contactId: string, lead: Lead, today: Day): (r: Analysis)
    ensures r.Analysis? && r.contactId == contactId
    ensures r.name == FullName(lead) && r.company == lead.company && r.notes == lead.notes
    ensures r.priority == Priority(lead.status)
    ensures r.priority == "High" <==> lead.status == "Qualified"
    ensures r.nextAction == NextAction(lead.status)
    ensures r.nextAction == "Schedule demo" <==> lead.status == "New"
    ensures r.lastContact == lead.lastContact && r.daysSinceContact == today - lead.lastContact
    ensures r.engagementScore == EngagementScore(r.daysSinceContact)
    ensures r.engagementScore >= 0
    ensures r.daysSinceContact >= 0 ==> r.engagementScore <= 100
    ensures r.recommendations == Recommendations(lead.status) && |r.recommendations| == 2
  {
    var days := today - lead.lastContact;
    Analysis(contactId, FullName(lead), lead.company, Priority(lead.status),
             NextAction(lead.status), lead.lastContact, days, EngagementScore(days),
             Recommendations(lead.status), lead.notes)
  }

  /** Analysis of one contact of the store on day `today`. */
  function AnalyzeContactInteractions(contactId: string, today: Day): Analysis
  {
    match GetLeadById(contactId)
    case None => AnalysisNotFound(NOT_FOUND, contactId)
    case Some(lead) => AnalyzeLead(contactId, lead, today)
  }

  /** Analysing a contact gives the not-found record (error and queried id
      only) exactly when the id is unknown, and otherwise the analysis of the
      first lead with that id. */
  lemma AnalyzeContactInteractionsSpec(contactId: string, today: Day)
    ensures AnalyzeContactInteractions(contactId, today).AnalysisNotFound? <==> GetLeadById(contactId).None?
    ensures AnalyzeContactInteractions(contactId, today).AnalysisNotFound? ==>
      AnalyzeContactInteractions(contactId, today) == AnalysisNotFound(NOT_FOUND, contactId)
    ensures GetLeadById(contactId).Some? ==>
      && GetLeadById(contactId).value.id == contactId
      && AnalyzeContactInteractions(contactId, today) == AnalyzeLead(contactId, GetLeadById(contactId).value, today)
  {
  }

  /** Every lead of the store analyses successfully under its own id. */
  lemma AnalyzeStoreLead(l: Lead, today: Day)
    requires l in SAMPLE_LEADS
    ensures AnalyzeContactInteractions(l.id, today).Analysis?
    ensures AnalyzeContactInteractions(l.id, today).name == FullName(l)
    ensures AnalyzeContactInteractions(l.id, today).priority == Priority(l.status)
  {
    SampleIdsDistinct();
    FindOwnId(SAMPLE_LEADS, l);
  }

  /** The analysis of LD001 (status New). */
  lemma AnalysisOfLD001(today: Day)
    ensures var r := AnalyzeContactInteractions("LD001", today);
      && r.Analysis? && r.name == "John Smith"
      && r.priority == "Medium" && r.nextAction == "Schedule demo"
      && r.recommendations == ["Send welcome email", "Schedule initial call"]
      && r.daysSinceContact == today - 19802
  {
    SampleIdsDistinct();
    FindOwnId(SAMPLE_LEADS, LD001);
  }

  // ---------------------------------------------------------------------
  // Lead scoring

  const STATUS_SCORE: map<string, int> := map["New" := 20, "Qualified" := 40, "In Progress" := 30]
  const INDUSTRY_SCORE: map<string, int> :=
    map["Technology" := 30, "Healthcare" := 25, "Finance" := 25, "Education" := 20, "Marketing" := 20]
  const TITLE_SCORE: map<string, int> := map["CTO" := 30, "Director" := 25, "Manager" := 20]

  /** The lead's status, industry and title are all keys of their tables. */
  predicate Scorable(l: Lead)
  {
    l.status in STATUS_SCORE && l.industry in INDUSTRY_SCORE && l.title in TITLE_SCORE
  }

  /** Every entry of the status table lies in [20, 40], and every entry of
      the industry and title tables in [20, 30]. */
  lemma ScoreTablesBounded()
    ensures forall k :: k in STATUS_SCORE ==> 20 <= STATUS_SCORE[k] <= 40
    ensures forall k :: k in INDUSTRY_SCORE ==> 20 <= INDUSTRY_SCORE[k] <= 30
    ensures forall k :: k in TITLE_SCORE ==> 20 <= TITLE_SCORE[k] <= 30
  {
  }

  /** Scores `lead` under `contactId`. A missing table key raises a KeyError
      naming it; the tables are consulted in the order status, industry,
      title. */
  function ScoreLead(contactId: string, lead: Lead): (r: Outcome<ScoreReport>)
    ensures r.Returned? <==> Scorable(lead)
    ensures r.KeyErrorRaised? ==>
      r.key == (if lead.status !in STATUS_SCORE then lead.status
                else if lead.industry !in INDUSTRY_SCORE then lead.industry
                else lead.title)
    ensures r.Returned? ==>
      && r.value.LeadScore?
      && r.value.contactId == contactId && r.value.name == FullName(lead)
      && r.value.company == lead.company
      && r.value.statusScore == STATUS_SCORE[lead.status]
      && r.value.industryScore == INDUSTRY_SCORE[lead.industry]
      && r.value.titleScore == TITLE_SCORE[lead.title]
      && r.value.totalScore == r.value.statusScore + r.value.industryScore + r.value.titleScore
      && 60 <= r.value.totalScore <= 100
  {
    if lead.status !in STATUS_SCORE then KeyErrorRaised(lead.status)
    else if lead.industry !in INDUSTRY_SCORE then KeyErrorRaised(lead.industry)
    else if lead.title !in TITLE_SCORE then KeyErrorRaised(lead.title)
    else
      ScoreTablesBounded();
      var s, i, t := STATUS_SCORE[lead.status], INDUSTRY_SCORE[lead.industry], TITLE_SCORE[lead.title];
      Returned(LeadScore(contactId, FullName(lead), lead.company, s + i + t, s, i, t))
  }

  /** Score of one contact of the store. */
  function GenerateLeadScore(contactId: string): Outcome<ScoreReport>
  {
    match GetLeadById(contactId)
    case None => Returned(ScoreNotFound(NOT_FOUND))
    case Some(lead) => ScoreLead(contactId, lead)
  }

  /** Scoring a contact gives the not-found record (with no id) exactly when
      the id is unknown, and otherwise the score of the first lead with that
      id. */
  lemma GenerateLeadScoreSpec(contactId: string)
    ensures GetLeadById(contactId).None? <==>
      GenerateLeadScore(contactId) == Returned(ScoreNotFound(NOT_FOUND))
    ensures GetLeadById(contactId).Some? ==>
      && GetLeadById(contactId).value.id == contactId
      && GenerateLeadScore(contactId) == ScoreLead(contactId, GetLeadById(contactId).value)
  {
  }

  /** The table lookups for the sample leads: only LD001 has a title that
      is a key of the title table; every sample status and industry is a
      key of its table. */
  lemma SampleTableKeys(l: Lead)
    requires l in SAMPLE_LEADS
    ensures l.status in STATUS_SCORE && l.industry in INDUSTRY_SCORE
    ensures l.title in TITLE_SCORE <==> l == LD001
  {
    assert l == LD001 || l == LD002 || l == LD003 || l == LD004 || l == LD005;
    if l != LD001 {
      assert |l.title| > 8;
    }
  }

  /** Of the five sample leads only LD001 can be scored: the other titles
      are compound ("Marketing Director", "IT Manager", ...) and are not
      keys of the title table. LD001 scores 20 + 30 + 30 = 80. */
  lemma OnlyLD001IsScorable(l: Lead)
    requires l in SAMPLE_LEADS
    ensures GenerateLeadScore(l.id).Returned? <==> l.id == "LD001"
    ensures GenerateLeadScore(l.id).KeyErrorRaised? ==> GenerateLeadScore(l.id).key == l.title
    ensures l.id == "LD001" ==> GenerateLeadScore(l.id).value.totalScore == 80
  {
    SampleIdsDistinct();
    FindOwnId(SAMPLE_LEADS, l);
    GenerateLeadScoreSpec(l.id);
    SampleTableKeys(l);
    assert l == LD001 <==> l.id == "LD001" by {
      if l.id == "LD001" {
        FindOwnId(SAMPLE_LEADS, LD001);
      }
    }
  }

  /** Scores the given contacts in order; the first KeyError aborts the
      whole run and is what the run raises. */
  function ScoreAll(contacts: seq<Lead>): (r: Outcome<seq<ScoreReport>>)
    ensures r.Returned? ==> |r.value| == |contacts|
  {
    if contacts == [] then Returned([])
    else
      match ScoreAll(contacts[..|contacts| - 1])
      case KeyErrorRaised(k) => KeyErrorRaised(k)
      case Returned(reports) =>
        match GenerateLeadScore(contacts[|contacts| - 1].id)
        case KeyErrorRaised(k) => KeyErrorRaised(k)
        case Returned(report) => Returned(reports + [report])
  }

  /** One step of the scoring run: the run over the contacts is the run
      over all but the last, extended by the last contact's score. */
  lemma ScoreAllLast(contacts: seq<Lead>, before: seq<ScoreReport>)
    requires |contacts| > 0
    requires ScoreAll(contacts[..|contacts| - 1]) == Returned(before)
    ensures var last := GenerateLeadScore(contacts[|contacts| - 1].id);
      ScoreAll(contacts) == if last.Returned? then Returned(before + [last.value])
                            else KeyErrorRaised(last.key)
  {
  }

  /** Once a prefix of the contacts raises, the whole run raises the same. */
  lemma {:induction false} ScoreAllAbortsAtPrefix(contacts: seq<Lead>, n: nat)
    requires n <= |contacts|
    requires ScoreAll(contacts[..n]).KeyErrorRaised?
    ensures ScoreAll(contacts) == ScoreAll(contacts[..n])
    decreases |contacts| - n
  {
    if n < |contacts| {
      assert contacts[..n + 1][..n] == contacts[..n];
      ScoreAllAbortsAtPrefix(contacts, n + 1);
    } else {
      assert contacts[..n] == contacts;
    }
  }

  /** A scoring run completes exactly when every contact scores, and then
      holds each contact's score, in contact order. */
  lemma {:induction false} ScoreAllReturned(contacts: seq<Lead>)
    ensures ScoreAll(contacts).Returned? <==>
      forall k :: 0 <= k < |contacts| ==> GenerateLeadScore(contacts[k].id).Returned?
    ensures ScoreAll(contacts).Returned? ==>
      && |ScoreAll(contacts).value| == |contacts|
      && forall k :: 0 <= k < |contacts| ==>
           ScoreAll(contacts).value[k] == GenerateLeadScore(contacts[k].id).value
  {
    if contacts != [] {
      var n := |contacts| - 1;
      var p := contacts[..n];
      ScoreAllReturned(p);
      assert forall k :: 0 <= k < |p| ==> p[k] == contacts[k];
      var last := GenerateLeadScore(contacts[n].id);
      if ScoreAll(p).KeyErrorRaised? {
        ScoreAllAbortsAtPrefix(contacts, n);
        var k :| 0 <= k < |p| && !GenerateLeadScore(p[k].id).Returned?;
        assert !GenerateLeadScore(contacts[k].id).Returned?;
      } else {
        var before := ScoreAll(p).value;
        ScoreAllLast(contacts, before);
        if last.Returned? {
          assert ScoreAll(contacts) == Returned(before + [last.value]);
          forall k | 0 <= k < |contacts|
            ensures GenerateLeadScore(contacts[k].id).Returned?
            ensures (before + [last.value])[k] == GenerateLeadScore(contacts[k].id).value
          {
            if k < n {
              assert p[k] == contacts[k];
              assert GenerateLeadScore(p[k].id).Returned? && before[k] == GenerateLeadScore(p[k].id).value;
              assert (before + [last.value])[k] == before[k];
            } else {
              assert (before + [last.value])[k] == last.value;
            }
          }
        } else {
          assert ScoreAll(contacts).KeyErrorRaised?;
        }
      }
    }
  }

  /** A scoring run that raises, raises the KeyError of the first contact
      whose scoring fails; every contact before it scores. */
  lemma {:induction false} ScoreAllRaised(contacts: seq<Lead>)
    requires ScoreAll(contacts).KeyErrorRaised?
    ensures exists i :: (0 <= i < |contacts|
      && (forall j :: 0 <= j < i ==> GenerateLeadScore(contacts[j].id).Returned?)
      && GenerateLeadScore(contacts[i].id) == KeyErrorRaised(ScoreAll(contacts).key))
  {
    var n := |contacts| - 1;
    var p := contacts[..n];
    assert forall k :: 0 <= k < |p| ==> p[k] == contacts[k];
    if ScoreAll(p).KeyErrorRaised? {
      ScoreAllRaised(p);
      var i :| (0 <= i < |p|
        && (forall j :: 0 <= j < i ==> GenerateLeadScore(p[j].id).Returned?)
        && GenerateLeadScore(p[i].id) == KeyErrorRaised(ScoreAll(p).key));
      assert GenerateLeadScore(contacts[i].id) == KeyErrorRaised(ScoreAll(contacts).key);
    } else {
      ScoreAllReturned(p);
      assert GenerateLeadScore(contacts[n].id) == KeyErrorRaised(ScoreAll(contacts).key);
    }
  }

  /** A scoring run whose first contact scores and whose second raises,
      raises what the second raises. */
  lemma {:induction false} ScoreAllRaisesAtSecond(contacts: seq<Lead>)
    requires |contacts| >= 2
    requires GenerateLeadScore(contacts[0].id).Returned?
    requires GenerateLeadScore(contacts[1].id).KeyErrorRaised?
    ensures ScoreAll(contacts) == KeyErrorRaised(GenerateLeadScore(contacts[1].id).key)
  {
    var first := GenerateLeadScore(contacts[0].id);
    var one := contacts[..1];
    assert |one| == 1 && one[0] == contacts[0] && one[..0] == [];
    ScoreAllLast(one, []);
    assert [] + [first.value] == [first.value];
    var two := contacts[..2];
    assert two[..1] == one && two[1] == contacts[1];
    assert ScoreAll(two[..|two| - 1]) == Returned([first.value]);
    ScoreAllLast(two, [first.value]);
    ScoreAllAbortsAtPrefix(contacts, 2);
  }

  /** LD001 scores 20 (New) + 30 (Technology) + 30 (CTO) = 80. */
  lemma ScoreOfLD001()
    ensures GenerateLeadScore("LD001")
         == Returned(LeadScore("LD001", "John Smith", "Tech Solutions Inc.", 80, 20, 30, 30))
  {
    SampleIdsDistinct();
    FindOwnId(SAMPLE_LEADS, LD001);
    assert FullName(LD001) == "John Smith";
    assert STATUS_SCORE["New"] == 20 && INDUSTRY_SCORE["Technology"] == 30 && TITLE_SCORE["CTO"] == 30;
  }

  /** Scoring LD002 raises KeyError("Marketing Director"): its status and
      industry are keys of their tables, its title is not. */
  lemma ScoreOfLD002()
    ensures GenerateLeadScore("LD002") == KeyErrorRaised("Marketing Director")
  {
    OnlyLD001IsScorable(LD002);
  }

  /** Scoring contacts that start with LD001, LD002 (as the store does)
      raises KeyError("Marketing Director") at the second one, so such a
      scoring run never completes. */
  lemma ScoringStoreOrderRaises(contacts: seq<Lead>)
    requires |contacts| >= 2 && contacts[0] == LD001 && contacts[1] == LD002
    ensures ScoreAll(contacts) == KeyErrorRaised("Marketing Director")
  {
    ScoreOfLD001();
    ScoreOfLD002();
    ScoreAllRaisesAtSecond(contacts);
  }

  /** The loop of the scheduled analysis job: one analysis per contact, in
      contact order. */
  method AnalyzeContacts(contacts: seq<Lead>, today: Day) returns (reports: seq<Analysis>)
    ensures |reports| == |contacts|
    ensures forall k :: 0 <= k < |contacts| ==>
      reports[k] == AnalyzeContactInteractions(contacts[k].id, today)
  {
    reports := [];
    var i := 0;
    while i < |contacts|
      invariant 0 <= i <= |contacts|
      invariant |reports| == i
      invariant forall k :: 0 <= k < i ==> reports[k] == AnalyzeContactInteractions(contacts[k].id, today)
    {
      var report := AnalyzeContactInteractions(contacts[i].id, today);
      reports := reports + [report];
      i := i + 1;
    }
  }

  /** The loop of the scheduled scoring job: the scores of the contacts in
      order, or the first KeyError raised. */
  method ScoreContacts(contacts: seq<Lead>) returns (outcome: Outcome<seq<ScoreReport>>)
    ensures outcome == ScoreAll(contacts)
  {
    var reports: seq<ScoreReport> := [];
    var i := 0;
    while i < |contacts|
      invariant 0 <= i <= |contacts|
      invariant ScoreAll(contacts[..i]) == Returned(reports)
    {
      var score := GenerateLeadScore(contacts[i].id);
      assert contacts[..i + 1][..i] == contacts[..i];
      if score.KeyErrorRaised? {
        ScoreAllAbortsAtPrefix(contacts, i + 1);
        return KeyErrorRaised(score.key);
      }
      reports := reports + [score.value];
      i := i + 1;
    }
    assert contacts[..i] == contacts;
    outcome := Returned(reports);
  }

  // ---------------------------------------------------------------------
  // Overdue tasks

  /** A pending task whose due day is strictly before `today`. */
  predicate IsOverdue(t: Task, today: Day)
  {
    t.dueDate < today && t.status == "Pending"
  }

  /** The overdue tasks of `tasks`: a subsequence of the list (order kept)
      holding exactly its overdue members. */
  function OverdueTasks(tasks: seq<Task>, today: Day): (r: seq<Task>)
    ensures IsSubsequence(r, tasks)
    ensures forall t :: t in r <==> t in tasks && IsOverdue(t, today)
  {
    var keep := (t: Task) => IsOverdue(t, today);
    FilterIsSubsequence(tasks, keep);
    FilterSound(tasks, keep);
    FilterComplete(tasks, keep);
    Filter(tasks, keep)
  }

  /** Adding a task changes the overdue list only by that task, and only
      when it is itself overdue: a fresh task due later adds nothing. */
  lemma {:induction false} OverdueAfterAppend(tasks: seq<Task>, t: Task, today: Day)
    ensures OverdueTasks(tasks + [t], today)
         == OverdueTasks(tasks, today) + (if IsOverdue(t, today) then [t] else [])
  {
    FilterSnoc(tasks, t, (u: Task) => IsOverdue(u, today));
  }

  // ---------------------------------------------------------------------
  // The bot

  /** The keys of the last-run map, one per scheduled job. */
  const JOB_KEYS: set<string> := {"analysis", "scoring", "task_check"}

  class CrmAutomationBot {
    /** The leads the bot works on, fixed at construction. */
    const leads: seq<Lead>
    var tasks: seq<Task>
    /** Per job, the text of the time it last completed, `None` before. */
    var lastRun: map<string, Option<string>>

    /** Every created task is pending, and the last-run map has exactly one
        entry per job. */
    ghost predicate Valid()
      reads this
    {
      && lastRun.Keys == JOB_KEYS
      && forall i :: 0 <= i < |tasks| ==> tasks[i].status == "Pending"
    }

    constructor ()
      ensures Valid()
      ensures leads == SAMPLE_LEADS
      ensures tasks == []
      ensures lastRun == map["analysis" := None, "scoring" := None, "task_check" := None]
    {
      leads := GetSampleLeads();
      tasks := [];
      lastRun := map["analysis" := None, "scoring" := None, "task_check" := None];
    }

    /** A non-empty filter with a `status` key selects by status, even when
        an `industry` key is present too; otherwise an `industry` key selects
        by industry; anything else returns all leads. */
    function GetContacts(filters: Option<map<string, string>>): (r: seq<Lead>)
      ensures filters.Some? && "status" in filters.value ==>
        r == GetLeadsByStatus(filters.value["status"])
      ensures filters.Some? && "status" !in filters.value && "industry" in filters.value ==>
        r == GetLeadsByIndustry(filters.value["industry"])
      ensures filters.None? || ("status" !in filters.value && "industry" !in filters.value) ==>
        r == leads
    {
      if filters.Some? && |filters.value| > 0 then
        if "status" in filters.value then GetLeadsByStatus(filters.value["status"])
        else if "industry" in filters.value then GetLeadsByIndustry(filters.value["industry"])
        else leads
      else leads
    }

    /** Whatever the filter, each contact returned is a lead of the store and
        is found again by its id. */
    lemma ContactsAreStoreLeads(filters: Option<map<string, string>>, l: Lead)
      requires leads == SAMPLE_LEADS
      requires l in GetContacts(filters)
      ensures l in SAMPLE_LEADS
      ensures GetLeadById(l.id) == Some(l)
    {
      SampleIdsDistinct();
      FindOwnId(SAMPLE_LEADS, l);
    }

    /** Every task of a valid bot is pending, so its overdue tasks are
        exactly its tasks due before `today`, in list order. */
    lemma OverdueOfValidBot(today: Day)
      requires Valid()
      ensures forall t :: t in OverdueTasks(tasks, today) <==> t in tasks && t.dueDate < today
    {
      forall t | t in tasks
        ensures t.status == "Pending"
      {
        var i :| 0 <= i < |tasks| && tasks[i] == t;
      }
    }

    /** A stub: reports success and changes nothing. */
    method UpdateContact(contactId: string, data: map<string, string>) returns (success: bool)
      ensures success
    {
      success := true;
    }

    /** Appends one pending task built from the arguments and the clock
        readings, and returns it. */
    method CreateTask(title: string, description: string, dueDate: Day, assignedTo: string,
                      clockSeconds: int, createdAt: string) returns (task: Task)
      requires Valid()
      modifies this
      ensures Valid()
      ensures task == Task(TaskId(clockSeconds), title, description, dueDate, assignedTo, "Pending", createdAt)
      ensures tasks == old(tasks) + [task]
      ensures lastRun == old(lastRun)
    {
      task := Task(TaskId(clockSeconds), title, description, dueDate, assignedTo, "Pending", createdAt);
      tasks := tasks + [task];
    }

    /** The overdue tasks on day `today`, in task-list order. */
    method CheckOverdueTasks(today: Day) returns (overdue: seq<Task>)
      ensures overdue == OverdueTasks(tasks, today)
    {
      overdue := [];
      var i := 0;
      while i < |tasks|
        invariant 0 <= i <= |tasks|
        invariant overdue == OverdueTasks(tasks[..i], today)
      {
        var task := tasks[i];
        assert tasks[..i + 1] == tasks[..i] + [task];
        OverdueAfterAppend(tasks[..i], task, today);
        if task.dueDate < today && task.status == "Pending" {
          overdue := overdue + [task];
        }
        i := i + 1;
      }
      assert tasks[..i] == tasks;
    }
  }

  // ---------------------------------------------------------------------
  // Scheduled jobs: each runs over the bot and records its own run time.

  /** The scheduled analysis job: analyses every contact in order, then
      records `currentTime` under its own key and nothing else. */
  method ScheduledAnalysis(bot: CrmAutomationBot, today: Day, currentTime: string)
    returns (reports: seq<Analysis>)
    requires bot.Valid()
    modifies bot
    ensures bot.Valid()
    ensures |reports| == |bot.leads|
    ensures forall k :: 0 <= k < |reports| ==>
      reports[k] == AnalyzeContactInteractions(bot.leads[k].id, today)
    ensures bot.tasks == old(bot.tasks)
    ensures bot.lastRun == old(bot.lastRun)["analysis" := Some(currentTime)]
  {
    reports := AnalyzeContacts(bot.GetContacts(None), today);
    bot.lastRun := bot.lastRun["analysis" := Some(currentTime)];
    assert "analysis" in JOB_KEYS;
  }

  /** The scheduled scoring job: scores every contact in order; a KeyError
      propagates out of it before it records its run time. */
  method ScheduledLeadScoring(bot: CrmAutomationBot, currentTime: string)
    returns (outcome: Outcome<seq<ScoreReport>>)
    requires bot.Valid()
    modifies bot
    ensures bot.Valid()
    ensures outcome == ScoreAll(bot.leads)
    ensures bot.tasks == old(bot.tasks)
    ensures bot.lastRun == if outcome.Returned? then old(bot.lastRun)["scoring" := Some(currentTime)]
                           else old(bot.lastRun)
  {
    outcome := ScoreContacts(bot.GetContacts(None));
    if outcome.Returned? {
      bot.lastRun := bot.lastRun["scoring" := Some(currentTime)];
      assert "scoring" in JOB_KEYS;
    }
  }

  /** The scheduled task check: collects the overdue tasks, then records
      `currentTime` under its own key and nothing else. */
  method ScheduledTaskCheck(bot: CrmAutomationBot, today: Day, currentTime: string)
    returns (overdue: seq<Task>)
    requires bot.Valid()
    modifies bot
    ensures bot.Valid()
    ensures overdue == OverdueTasks(bot.tasks, today)
    ensures bot.tasks == old(bot.tasks)
    ensures bot.lastRun == old(bot.lastRun)["task_check" := Some(currentTime)]
  {
    overdue := bot.CheckOverdueTasks(today);
    bot.lastRun := bot.lastRun["task_check" := Some(currentTime)];
    assert "task_check" in JOB_KEYS;
  }

  /** On a bot built over the sample store the scoring job always raises
      KeyError("Marketing Director"), so it never records a run time and
      leaves the bot's state as it was. */
  method ScoringJobNeverRecordsRun(bot: CrmAutomationBot, currentTime: string)
    returns (outcome: Outcome<seq<ScoreReport>>)
    requires bot.Valid() && bot.leads == SAMPLE_LEADS
    modifies bot
    ensures outcome == KeyErrorRaised("Marketing Director")
    ensures bot.lastRun == old(bot.lastRun) && bot.tasks == old(bot.tasks)
  {
    ScoringStoreOrderRaises(bot.leads);
    outcome := ScheduledLeadScoring(bot, currentTime);
  }
}
