/** The fixed lead store: five sample lead records, lookup by id and
    order-preserving filters by status and by industry. */
module SampleLeads {
  import opened Seqs

  /** A calendar date as a day number (days since 1970-01-01). */
  type Day = int

  /** One lead record. `lastContact` is the day number of the record's
      `last_contact` date; `createdDate` is never parsed and stays text. */
  datatype Lead = Lead(
    id: string,
    firstName: string,
    lastName: string,
    company: string,
    email: string,
    phone: string,
    title: string,
    industry: string,
    status: string,
    source: string,
    createdDate: string,
    lastContact: Day,
    notes: string)

  const LD001 := Lead("LD001", "John", "Smith", "Tech Solutions Inc.",
    "john.smith@techsolutions.com", "+1 (555) 123-4567", "CTO", "Technology",
    "New", "Website", "2024-03-15", 19802 /* 2024-03-20 */,
    "Interested in enterprise solutions. Requested demo.")
  const LD002 := Lead("LD002", "Sarah", "Johnson", "Global Marketing Group",
    "sarah.j@globalmarketing.com", "+1 (555) 234-5678", "Marketing Director", "Marketing",
    "Qualified", "Referral", "2024-03-10", 19800 /* 2024-03-18 */,
    "Looking for CRM integration with marketing tools.")
  const LD003 := Lead("LD003", "Michael", "Brown", "Healthcare Systems",
    "m.brown@healthcaresys.com", "+1 (555) 345-6789", "IT Manager", "Healthcare",
    "In Progress", "Trade Show", "2024-03-05", 19801 /* 2024-03-19 */,
    "Needs HIPAA compliance features. Budget approved.")
  const LD004 := Lead("LD004", "Emily", "Davis", "EduTech Solutions",
    "emily.d@edutech.com", "+1 (555) 456-7890", "Operations Manager", "Education",
    "New", "Social Media", "2024-03-22", 19804 /* 2024-03-22 */,
    "Interested in student management features.")
  const LD005 := Lead("LD005", "David", "Wilson", "Financial Services Corp",
    "d.wilson@financialcorp.com", "+1 (555) 567-8901", "Finance Director", "Finance",
    "Qualified", "Email Campaign", "2024-03-12", 19799 /* 2024-03-17 */,
    "Looking for financial reporting features. High priority.")

  /** The whole store, in its listed order. */
  const SAMPLE_LEADS: seq<Lead> := [LD001, LD002, LD003, LD004, LD005]

  /** No two leads of `leads` share an id. */
  ghost predicate DistinctIds(leads: seq<Lead>)
  {
    forall i, j :: 0 <= i < j < |leads| ==> leads[i].id != leads[j].id
  }

  /** The store as a whole: five leads with pairwise distinct ids. */
  function GetSampleLeads(): (r: seq<Lead>)
    ensures r == SAMPLE_LEADS
    ensures |r| == 5 && DistinctIds(r)
  {
    SAMPLE_LEADS
  }

  /** A linear search from the front: the first lead with the given id. */
  function FindById(leads: seq<Lead>, id: string): (r: Option<Lead>)
    ensures r.None? <==> forall i :: 0 <= i < |leads| ==> leads[i].id != id
    ensures r.Some? ==> r.value.id == id && r.value in leads
    ensures r.Some? ==> exists i :: 0 <= i < |leads| && leads[i] == r.value
                                    && forall j :: 0 <= j < i ==> leads[j].id != id
  {
    if leads == [] then None
    else if leads[0].id == id then Some(leads[0])
    else
      var r := FindById(leads[1..], id);
      assert forall i :: 0 < i < |leads| ==> leads[i] == leads[1..][i - 1];
      r
  }

  /** Lookup in the store by id: the first lead in store order with that
      id, or `None` exactly when no lead of the store has it. */
  function GetLeadById(id: string): (r: Option<Lead>)
    ensures r.None? <==> forall l :: l in SAMPLE_LEADS ==> l.id != id
    ensures r.Some? ==>
      exists i :: 0 <= i < |SAMPLE_LEADS| && SAMPLE_LEADS[i] == r.value && SAMPLE_LEADS[i].id == id
                  && forall j :: 0 <= j < i ==> SAMPLE_LEADS[j].id != id
  {
    FindById(SAMPLE_LEADS, id)
  }

  /** The leads of the store with the given status: a subsequence of the
      store (order kept) holding exactly the leads with that status. */
  function GetLeadsByStatus(status: string): (r: seq<Lead>)
    ensures IsSubsequence(r, SAMPLE_LEADS)
    ensures forall l :: l in r <==> l in SAMPLE_LEADS && l.status == status
  {
    var keep := (l: Lead) => l.status == status;
    FilterIsSubsequence(SAMPLE_LEADS, keep);
    FilterSound(SAMPLE_LEADS, keep);
    FilterComplete(SAMPLE_LEADS, keep);
    Filter(SAMPLE_LEADS, keep)
  }

  /** The leads of the store in the given industry: a subsequence of the
      store (order kept) holding exactly the leads of that industry. */
  function GetLeadsByIndustry(industry: string): (r: seq<Lead>)
    ensures IsSubsequence(r, SAMPLE_LEADS)
    ensures forall l :: l in r <==> l in SAMPLE_LEADS && l.industry == industry
  {
    var keep := (l: Lead) => l.industry == industry;
    FilterIsSubsequence(SAMPLE_LEADS, keep);
    FilterSound(SAMPLE_LEADS, keep);
    FilterComplete(SAMPLE_LEADS, keep);
    Filter(SAMPLE_LEADS, keep)
  }

  /** The sample ids LD001 to LD005 are pairwise distinct. */
  lemma SampleIdsDistinct()
    ensures DistinctIds(SAMPLE_LEADS)
  {
    assert SAMPLE_LEADS[0].id[4] == '1' && SAMPLE_LEADS[1].id[4] == '2' && SAMPLE_LEADS[2].id[4] == '3'
        && SAMPLE_LEADS[3].id[4] == '4' && SAMPLE_LEADS[4].id[4] == '5';
  }

  /** With distinct ids, looking up any member's id finds that very member. */
  lemma {:induction false} FindOwnId(leads: seq<Lead>, l: Lead)
    requires DistinctIds(leads)
    requires l in leads
    ensures FindById(leads, l.id) == Some(l)
  {
    var r := FindById(leads, l.id);
    var k :| 0 <= k < |leads| && leads[k] == l;
    var i :| 0 <= i < |leads| && leads[i] == r.value && forall j :: 0 <= j < i ==> leads[j].id != l.id;
    assert !(k < i);
    assert !(i < k);
  }

  /** A status that no sample lead has yields the empty list. */
  lemma {:induction false} UnknownStatusIsEmpty(status: string)
    requires status != "New" && status != "Qualified" && status != "In Progress"
    ensures GetLeadsByStatus(status) == []
  {
    FilterNone(SAMPLE_LEADS, (l: Lead) => l.status == status);
  }

  /** An industry that no sample lead has yields the empty list. */
  lemma {:induction false} UnknownIndustryIsEmpty(industry: string)
    requires industry != "Technology" && industry != "Marketing" && industry != "Healthcare"
    requires industry != "Education" && industry != "Finance"
    ensures GetLeadsByIndustry(industry) == []
  {
    FilterNone(SAMPLE_LEADS, (l: Lead) => l.industry == industry);
  }

  /** Every lead that a status filter returns is found again by its id. */
  lemma StatusResultsFoundById(status: string, l: Lead)
    requires l in GetLeadsByStatus(status)
    ensures GetLeadById(l.id) == Some(l)
  {
    SampleIdsDistinct();
    FindOwnId(SAMPLE_LEADS, l);
  }

  /** Every lead that an industry filter returns is found again by its id. */
  lemma IndustryResultsFoundById(industry: string, l: Lead)
    requires l in GetLeadsByIndustry(industry)
    ensures GetLeadById(l.id) == Some(l)
  {
    SampleIdsDistinct();
    FindOwnId(SAMPLE_LEADS, l);
  }

  /** The qualified leads are LD002 and LD005, in that order. */
  lemma QualifiedLeads()
    ensures GetLeadsByStatus("Qualified") == [LD002, LD005]
  {
    var keep := (l: Lead) => l.status == "Qualified";
    var s := SAMPLE_LEADS;
    assert s[1..] == [LD002, LD003, LD004, LD005];
    assert s[2..] == [LD003, LD004, LD005];
    assert s[3..] == [LD004, LD005];
    assert s[4..] == [LD005];
    assert Filter(s[4..], keep) == [LD005] by {
      assert s[4..][1..] == [];
    }
    assert Filter(s[3..], keep) == [LD005];
    assert Filter(s[2..], keep) == [LD005];
    assert Filter(s[1..], keep) == [LD002] + [LD005];
  }
}
