# CRM automation bot — a Dafny model

This project models the lead-automation core of a small CRM helper bot:

- **The lead store** (`SampleLeads`, `sample_leads.dfy`). There is a fixed table of five sample leads, LD001 to LD005. Lookup by id is a linear search that returns the first match or `None`. Filters by status and by industry keep the store's order.
- **The automation engine** (`CrmBot`, `crm_bot.dfy`). Contact retrieval dispatches on an optional filter map, and `status` takes precedence over `industry`. Interaction analysis gives a priority, a next action, an engagement score and two recommendations. Lead scoring sums three fixed lookup tables, and a key missing from a table raises a `KeyError`. Overdue-task detection is an order-preserving filter.
- **The bot object** (`CrmBot.CrmAutomationBot`). It owns a task list, which task creation appends to, and a last-run map. Each scheduled job overwrites only its own key in that map.
- **Shared helpers** (`Seqs`, `seqs.dfy`). A generic order-preserving `Filter` with its soundness, completeness, subsequence and append lemmas.

Dates are day numbers, counted as days since 1970-01-01; for example, 2024-03-20 is 19802. The current day `today`, the clock reading used for a task id and the timestamp texts are parameters. Python's `(datetime.now() - strptime(d)).days` is `today - day(d)`, because the time of day of `now` lies in [0, 1 day). So every rule is a total function of its inputs.

A consequence the model proves: five titles appear in the sample data, and only "CTO" is a key of the title table. So lead scoring is defined only for LD001: `GenerateLeadScore("LD002")` raises `KeyError("Marketing Director")`. The scheduled scoring job walks the leads in store order, so it raises at the second lead. It never reaches the line that records its run time (`ScoringJobNeverRecordsRun`).

Behaviour of the code worth noting:

- Contact retrieval: a filter holding both `status` and `industry` filters by status. An empty map returns all leads.
- Unknown table keys: they are not guarded. They raise `KeyError`.
- Scoring an unknown id: the result holds only `error`, with no id.

## Model

| member | source | states |
|---|---|---|
| SampleLeads.GetSampleLeads | crm_automation_bot/sample_leads.py:1-83 | the store is returned unchanged: five leads whose ids are pairwise distinct |
| SampleLeads.FindById | crm_automation_bot/sample_leads.py:95-98 | the search returns `None` exactly when no lead has the id; otherwise it returns the lead at the first index holding that id |
| SampleLeads.GetLeadById | crm_automation_bot/sample_leads.py:85-98 | lookup gives `None` iff no store lead has the id; otherwise the first lead in store order with that id |
| SampleLeads.SampleIdsDistinct | crm_automation_bot/sample_leads.py:1-77 | the sample ids LD001–LD005 are pairwise distinct |
| SampleLeads.FindOwnId | crm_automation_bot/sample_leads.py:95-97 | with distinct ids, searching for a member's id returns that very member |
| SampleLeads.GetLeadsByStatus | crm_automation_bot/sample_leads.py:100-110 | the status filter is a subsequence of the store (order kept), every result has the status, and every store lead with the status is in the result |
| SampleLeads.GetLeadsByIndustry | crm_automation_bot/sample_leads.py:112-122 | the industry filter is order-preserving, sound and complete for `industry == i` |
| SampleLeads.UnknownStatusIsEmpty | crm_automation_bot/sample_leads.py:110 | a status other than New, Qualified and In Progress gives the empty list |
| SampleLeads.UnknownIndustryIsEmpty | crm_automation_bot/sample_leads.py:122 | an industry no sample lead has gives the empty list |
| SampleLeads.StatusResultsFoundById | crm_automation_bot/sample_leads.py:95-110 | every lead a status filter returns is found again by lookup of its own id |
| SampleLeads.IndustryResultsFoundById | crm_automation_bot/sample_leads.py:95-122 | every lead an industry filter returns is found again by lookup of its own id |
| SampleLeads.QualifiedLeads | crm_automation_bot/sample_leads.py:100-110 | the Qualified leads are exactly [LD002, LD005], in that order |
| CrmBot.FullName | crm_automation_bot/crm_bot.py:120 | the name is the first name, one space, then the last name |
| CrmBot.Priority | crm_automation_bot/crm_bot.py:99 | priority is High iff the status is Qualified, otherwise Medium |
| CrmBot.NextAction | crm_automation_bot/crm_bot.py:100 | next action is "Schedule demo" iff the status is New, otherwise "Follow up call" |
| CrmBot.EngagementScore | crm_automation_bot/crm_bot.py:103-104 | the score is max(0, 100 − 5·days): never negative, and at most 100 when the contact is not in the future |
| CrmBot.Recommendations | crm_automation_bot/crm_bot.py:106-116 | exactly two recommendations, fixed for New, for Qualified and for every other status |
| CrmBot.AnalyzeLead | crm_automation_bot/crm_bot.py:98-129 | an analysis record carries the queried id, the lead's name, company, last contact and notes; priority High iff Qualified, else Medium; next action "Schedule demo" iff New, else "Follow up call"; days = today − last contact; engagement score = max(0, 100 − 5·days), never negative and at most 100 for days ≥ 0; the two recommendations of the status |
| CrmBot.AnalyzeContactInteractionsSpec | crm_automation_bot/crm_bot.py:81-129 | an unknown id gives a record holding only the error and the queried id; a known id gives the analysis of the first lead with that id |
| CrmBot.AnalyzeStoreLead | crm_automation_bot/crm_bot.py:91-100 | every store lead analyses successfully under its own id, with its own name and priority |
| CrmBot.AnalysisOfLD001 | crm_automation_bot/crm_bot.py:99-110 | LD001 (New) gets priority Medium, "Schedule demo" and ["Send welcome email", "Schedule initial call"] |
| CrmBot.ScoreTablesBounded | crm_automation_bot/crm_bot.py:146-148 | status scores lie in [20, 40], industry and title scores in [20, 30] |
| CrmBot.ScoreLead | crm_automation_bot/crm_bot.py:145-163 | scoring returns iff status, industry and title are all table keys; otherwise it raises KeyError on the first missing key (status, industry, title order); total = the sum of the three table entries and lies in [60, 100] |
| CrmBot.GenerateLeadScoreSpec | crm_automation_bot/crm_bot.py:131-163 | scoring gives the error record (no id) exactly when the id is unknown; otherwise it is the score of the first lead with that id |
| CrmBot.SampleTableKeys | crm_automation_bot/crm_bot.py:146-148 | every sample status and industry is a table key; the title is a key of the title table only for LD001 |
| CrmBot.OnlyLD001IsScorable | crm_automation_bot/crm_bot.py:146-151 | of the sample leads only LD001 can be scored (total 80); each of the others raises KeyError on its title |
| CrmBot.ScoreOfLD001 | crm_automation_bot/crm_bot.py:146-163 | LD001 scores 20 + 30 + 30 = 80 |
| CrmBot.ScoreOfLD002 | crm_automation_bot/crm_bot.py:146-148 | scoring LD002 raises KeyError("Marketing Director") |
| CrmBot.ScoreAll | crm_automation_bot/crm_bot.py:253-256 | the scoring run over the contacts in order: a completed run holds one score per contact |
| CrmBot.ScoreAllReturned | crm_automation_bot/crm_bot.py:253-256 | a scoring run completes iff every contact scores, and then holds each contact's score at that contact's position |
| CrmBot.ScoreAllRaised | crm_automation_bot/crm_bot.py:253-256 | a scoring run that raises, raises the KeyError of the first contact whose scoring fails; every contact before it scores |
| CrmBot.ScoreAllAbortsAtPrefix | crm_automation_bot/crm_bot.py:253-256 | once scoring a prefix of the contacts raises, the whole run raises the same error |
| CrmBot.ScoringStoreOrderRaises | crm_automation_bot/crm_bot.py:253-256 | a scoring run over contacts starting LD001, LD002 raises KeyError("Marketing Director") |
| CrmBot.AnalyzeContacts | crm_automation_bot/crm_bot.py:235-238 | the analysis loop yields one analysis per contact, in contact order |
| CrmBot.ScoreContacts | crm_automation_bot/crm_bot.py:253-256 | the scoring loop returns exactly the scoring run `ScoreAll`: so (by `ScoreAllReturned` and `ScoreAllRaised`) the scores in contact order when every contact scores, otherwise the KeyError of the first contact that fails |
| CrmBot.OverdueTasks | crm_automation_bot/crm_bot.py:172-180 | the overdue list is a subsequence of the task list and holds exactly the tasks with due day < today and status Pending |
| CrmBot.OverdueAfterAppend | crm_automation_bot/crm_bot.py:173-178 | appending a task adds it to the overdue list iff it is overdue; a fresh task due later adds nothing |
| CrmBot.CrmAutomationBot.constructor | crm_automation_bot/crm_bot.py:12-22 | a new bot works on the sample leads, has no tasks, and has a last-run entry of None for each of the three jobs |
| CrmBot.CrmAutomationBot.GetContacts | crm_automation_bot/crm_bot.py:24-39 | a filter with `status` gives the status filter even when `industry` is present; otherwise `industry` gives the industry filter; no filter, an empty one, or neither key gives all leads |
| CrmBot.CrmAutomationBot.ContactsAreStoreLeads | crm_automation_bot/crm_bot.py:34-39 | whatever the filter, every contact returned is a store lead found again by its id |
| CrmBot.CrmAutomationBot.OverdueOfValidBot | crm_automation_bot/crm_bot.py:172-180 | every task the bot creates is Pending (line 74), so on such a bot the overdue tasks are exactly those due before today |
| CrmBot.CrmAutomationBot.UpdateContact | crm_automation_bot/crm_bot.py:41-53 | reports success and changes no state |
| CrmBot.CrmAutomationBot.CreateTask | crm_automation_bot/crm_bot.py:55-79 | appends exactly one Pending task built from the arguments at the end, leaves earlier tasks and the last-run map unchanged, and returns the appended task |
| CrmBot.CrmAutomationBot.CheckOverdueTasks | crm_automation_bot/crm_bot.py:165-180 | returns the overdue tasks in list order and changes nothing |
| CrmBot.ScheduledAnalysis | crm_automation_bot/crm_bot.py:227-243 | one analysis per lead in order; only the `analysis` entry of the last-run map changes; the tasks are unchanged |
| CrmBot.ScheduledLeadScoring | crm_automation_bot/crm_bot.py:245-261 | the result is the scoring run over the leads; the `scoring` entry is set only when no KeyError was raised; nothing else changes |
| CrmBot.ScheduledTaskCheck | crm_automation_bot/crm_bot.py:263-281 | returns the overdue tasks; only the `task_check` entry of the last-run map changes |
| CrmBot.ScoringJobNeverRecordsRun | crm_automation_bot/crm_bot.py:245-261 | over the sample leads the scoring job raises KeyError("Marketing Director") and leaves the last-run map and the tasks unchanged |

## Left out

- The scheduler driver (`run_scheduled_tasks`) and the job registration at fixed intervals are not modelled. They are an infinite poll-and-sleep loop driven by a third-party library, and that loop has no result to state.
- The demo run and all console output are not modelled: banners, `print` and `json.dumps`. The reports that the scheduled jobs print are returned as sequences instead.
- Date and time are not modelled. `datetime.now()` becomes the `today` day number, and `time.time()` becomes the `clockSeconds` argument, already truncated to an integer. The text of `datetime.now()` becomes the `createdAt` and `currentTime` arguments. `last_contact` and `due_date` are day numbers. The `ValueError` that `strptime` raises on a malformed date is not modelled. `created_date` stays text, because it is never parsed.
- Task ids: `TASK<seconds>` is the datatype `TaskId(seconds)`. Uniqueness is not claimed, because two tasks created within the same second get the same id.
- `update_contact` logs its arguments. Only its result and the absence of any state change are modelled.
- The filter map's values are strings. Python accepts any value there, and a value of another type simply matches no lead.
- `self.leads` is the same list object as the store's `SAMPLE_LEADS`. That aliasing is not modelled, because nothing mutates that list. The bot's `leads` is a constant that the constructor sets to the store's value.
- CrmBot.ScheduledAnalysis: it does not restate that each report is a successful analysis. `AnalyzeStoreLead` proves that for every store lead, and the method leaves the leads generic.
- The environment loader and the unused imports are not modelled: `dotenv`, `os` and `random`.
