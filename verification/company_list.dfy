/** The company records of the company tracker page (client/src/pages/CompanyTracker.tsx) and the
    list transformations its handlers build before saving: id-keyed `map`, `filter` and append. */
module CompanyList {
  import opened Common
  import opened Text

  /** `ApplicationStatus` and `InterviewStatus`, which have the same three values. */
  datatype Status = Pending | Accepted | Rejected

  datatype InterviewRound = InterviewRound(id: string, name: string, status: Status)

  datatype Company = Company(
    id: string, name: string, applicationStatus: Status, rounds: seq<InterviewRound>, review: string)

  /** The template literal `Round ${n}`. */
  function RoundLabel(n: nat): string
  {
    "Round " + NatToString(n)
  }

  /** No company in the list has id `id`. */
  predicate IdIsFresh(companies: seq<Company>, id: string)
  {
    forall i :: 0 <= i < |companies| ==> companies[i].id != id
  }

  /** `companies.find(c => c.id === id)`, as the position of the first company with that id. */
  function FindCompany(companies: seq<Company>, id: string): (k: Option<nat>)
    ensures k.None? <==> IdIsFresh(companies, id)
    ensures k.Some? ==> k.value < |companies| && companies[k.value].id == id
    ensures k.Some? ==> forall j :: 0 <= j < k.value ==> companies[j].id != id
  {
    if companies == [] then None
    else if companies[0].id == id then Some(0)
    else
      match FindCompany(companies[1..], id)
      case None => None
      case Some(k) => Some(k + 1)
  }

  // ---------------------------------------------------------------------------------------------
  // Companies

  /** The list `addCompany` saves: the old list, then one new company with the trimmed name, status
      pending, an empty review and three pending rounds named as `addRound` would have named them. */
  function AddCompany(companies: seq<Company>, name: string, id: string, round1: string, round2: string,
                      round3: string): (r: seq<Company>)
    ensures |r| == |companies| + 1 && r[..|companies|] == companies
    ensures var c := r[|companies|];
      && c.id == id && c.name == Trim(name) && c.applicationStatus == Pending && c.review == ""
      && |c.rounds| == 3
      && c.rounds[0].id == round1 && c.rounds[1].id == round2 && c.rounds[2].id == round3
      && (forall k :: 0 <= k < 3 ==> c.rounds[k].status == Pending && c.rounds[k].name == RoundLabel(k + 1))
  {
    var added := Company(id, Trim(name), Pending, [
      InterviewRound(round1, "Round 1", Pending),
      InterviewRound(round2, "Round 2", Pending),
      InterviewRound(round3, "Round 3", Pending)
    ], "");
    assert RoundLabel(1) == "Round 1" && RoundLabel(2) == "Round 2" && RoundLabel(3) == "Round 3";
    companies + [added]
  }

  /** The list `updateApplicationStatus(id, status)` saves: the companies with id `id` take the new
      status; nothing else changes. */
  function SetApplicationStatus(companies: seq<Company>, id: string, status: Status): (r: seq<Company>)
    ensures |r| == |companies|
    ensures forall i :: 0 <= i < |companies| ==>
      r[i].applicationStatus == (if companies[i].id == id then status else companies[i].applicationStatus)
    ensures forall i :: 0 <= i < |companies| ==>
      r[i].(applicationStatus := companies[i].applicationStatus) == companies[i]
  {
    seq(|companies|, i requires 0 <= i < |companies| =>
      if companies[i].id == id then companies[i].(applicationStatus := status) else companies[i])
  }

  /** The list `deleteCompany(id)` saves: exactly the companies whose id is not `id`. */
  function RemoveCompany(companies: seq<Company>, id: string): (r: seq<Company>)
    ensures forall i :: 0 <= i < |r| ==> r[i].id != id && r[i] in companies
    ensures forall i :: 0 <= i < |companies| && companies[i].id != id ==> companies[i] in r
    ensures forall i :: 0 <= i < |companies| ==>
      multiset(r)[companies[i]] == if companies[i].id != id then multiset(companies)[companies[i]] else 0
  {
    Filter(companies, (c: Company) => c.id != id)
  }

  /** The list `saveCompanyName(id)` saves once the edited name is not blank: the companies with id
      `id` take the trimmed name; nothing else changes. */
  function RenameCompany(companies: seq<Company>, id: string, name: string): (r: seq<Company>)
    ensures |r| == |companies|
    ensures forall i :: 0 <= i < |companies| ==>
      r[i].name == (if companies[i].id == id then Trim(name) else companies[i].name)
    ensures forall i :: 0 <= i < |companies| ==> r[i].(name := companies[i].name) == companies[i]
  {
    seq(|companies|, i requires 0 <= i < |companies| =>
      if companies[i].id == id then companies[i].(name := Trim(name)) else companies[i])
  }

  /** The list `saveReview()` saves for the selected company: the review text is stored as typed,
      without trimming, on the companies with id `id`; nothing else changes. */
  function SetReview(companies: seq<Company>, id: string, review: string): (r: seq<Company>)
    ensures |r| == |companies|
    ensures forall i :: 0 <= i < |companies| ==>
      r[i].review == (if companies[i].id == id then review else companies[i].review)
    ensures forall i :: 0 <= i < |companies| ==> r[i].(review := companies[i].review) == companies[i]
  {
    seq(|companies|, i requires 0 <= i < |companies| =>
      if companies[i].id == id then companies[i].(review := review) else companies[i])
  }

  // ---------------------------------------------------------------------------------------------
  // Rounds

  /** The rounds of one company with `f` applied to those whose id is `roundId`. */
  function MapRound(rounds: seq<InterviewRound>, roundId: string, f: InterviewRound -> InterviewRound)
    : (r: seq<InterviewRound>)
    ensures |r| == |rounds|
    ensures forall k :: 0 <= k < |rounds| ==> r[k] == if rounds[k].id == roundId then f(rounds[k]) else rounds[k]
  {
    seq(|rounds|, k requires 0 <= k < |rounds| => if rounds[k].id == roundId then f(rounds[k]) else rounds[k])
  }

  /** The list `updateRoundStatus(companyId, roundId, status)` saves: within the companies with id
      `companyId`, the rounds with id `roundId` take the new status; nothing else changes. */
  function SetRoundStatus(companies: seq<Company>, companyId: string, roundId: string, status: Status)
    : (r: seq<Company>)
    ensures |r| == |companies|
    ensures forall i :: 0 <= i < |companies| && companies[i].id != companyId ==> r[i] == companies[i]
    ensures forall i :: 0 <= i < |companies| && companies[i].id == companyId ==>
      && r[i].(rounds := companies[i].rounds) == companies[i]
      && |r[i].rounds| == |companies[i].rounds|
      && forall k :: 0 <= k < |companies[i].rounds| ==>
        r[i].rounds[k] == if companies[i].rounds[k].id == roundId
                          then companies[i].rounds[k].(status := status) else companies[i].rounds[k]
  {
    seq(|companies|, i requires 0 <= i < |companies| =>
      if companies[i].id == companyId
      then companies[i].(rounds := MapRound(companies[i].rounds, roundId, (x: InterviewRound) => x.(status := status)))
      else companies[i])
  }

  /** The list `saveRoundName(companyId, roundId)` saves once the edited name is not blank: within the
      companies with id `companyId`, the rounds with id `roundId` take the trimmed name. */
  function RenameRound(companies: seq<Company>, companyId: string, roundId: string, name: string)
    : (r: seq<Company>)
    ensures |r| == |companies|
    ensures forall i :: 0 <= i < |companies| && companies[i].id != companyId ==> r[i] == companies[i]
    ensures forall i :: 0 <= i < |companies| && companies[i].id == companyId ==>
      && r[i].(rounds := companies[i].rounds) == companies[i]
      && |r[i].rounds| == |companies[i].rounds|
      && forall k :: 0 <= k < |companies[i].rounds| ==>
        r[i].rounds[k] == if companies[i].rounds[k].id == roundId
                          then companies[i].rounds[k].(name := Trim(name)) else companies[i].rounds[k]
  {
    seq(|companies|, i requires 0 <= i < |companies| =>
      if companies[i].id == companyId
      then companies[i].(rounds := MapRound(companies[i].rounds, roundId, (x: InterviewRound) => x.(name := Trim(name))))
      else companies[i])
  }

  /** The rounds left after removing the round `roundId`. */
  function WithoutRound(rounds: seq<InterviewRound>, roundId: string): seq<InterviewRound>
  {
    Filter(rounds, (r: InterviewRound) => r.id != roundId)
  }

  /** The list `deleteRound(companyId, roundId)` saves: the companies with id `companyId` lose exactly
      their rounds with id `roundId`; every other company and field is left as it was. */
  function RemoveRound(companies: seq<Company>, companyId: string, roundId: string): (r: seq<Company>)
    ensures |r| == |companies|
    ensures forall i :: 0 <= i < |companies| && companies[i].id != companyId ==> r[i] == companies[i]
    ensures forall i :: 0 <= i < |companies| && companies[i].id == companyId ==>
      && r[i].(rounds := companies[i].rounds) == companies[i]
      && (forall k :: 0 <= k < |r[i].rounds| ==> r[i].rounds[k].id != roundId && r[i].rounds[k] in companies[i].rounds)
      && (forall k :: 0 <= k < |companies[i].rounds| && companies[i].rounds[k].id != roundId ==>
            companies[i].rounds[k] in r[i].rounds)
      && (forall k :: 0 <= k < |companies[i].rounds| ==>
            multiset(r[i].rounds)[companies[i].rounds[k]] ==
              if companies[i].rounds[k].id != roundId then multiset(companies[i].rounds)[companies[i].rounds[k]] else 0)
  {
    seq(|companies|, i requires 0 <= i < |companies| =>
      if companies[i].id == companyId
      then companies[i].(rounds := WithoutRound(companies[i].rounds, roundId))
      else companies[i])
  }

  /** The list `addRound(companyId)` saves, or `None` when no company has that id (the handler then
      returns without saving). Every company with that id gets the same new pending round at the end
      of its rounds, named `Round n+1` after the round count n of the first such company. */
  function AddRound(companies: seq<Company>, companyId: string, roundId: string): (r: Option<seq<Company>>)
    ensures r.None? <==> IdIsFresh(companies, companyId)
    ensures r.Some? ==> FindCompany(companies, companyId).Some?
    ensures r.Some? ==> |r.value| == |companies|
    ensures r.Some? ==> forall i :: 0 <= i < |companies| && companies[i].id != companyId ==> r.value[i] == companies[i]
    ensures r.Some? ==> forall i :: 0 <= i < |companies| && companies[i].id == companyId ==>
      && r.value[i].(rounds := companies[i].rounds) == companies[i]
      && |r.value[i].rounds| == |companies[i].rounds| + 1
      && r.value[i].rounds[..|companies[i].rounds|] == companies[i].rounds
      && r.value[i].rounds[|companies[i].rounds|].id == roundId
      && r.value[i].rounds[|companies[i].rounds|].status == Pending
    ensures r.Some? ==> forall i :: 0 <= i < |companies| && companies[i].id == companyId ==>
      r.value[i].rounds[|companies[i].rounds|].name ==
        RoundLabel(|companies[FindCompany(companies, companyId).value].rounds| + 1)
  {
    match FindCompany(companies, companyId)
    case None => None
    case Some(k) =>
      var added := InterviewRound(roundId, RoundLabel(|companies[k].rounds| + 1), Pending);
      var r := seq(|companies|, i requires 0 <= i < |companies| =>
        if companies[i].id == companyId then companies[i].(rounds := companies[i].rounds + [added])
        else companies[i]);
      Some(r)
  }

  // ---------------------------------------------------------------------------------------------
  // Properties relating the operations

  /** Deleting keeps the surviving companies in their relative order. */
  lemma RemoveCompanyKeepsOrder(companies: seq<Company>, id: string)
    ensures IsSubsequence(RemoveCompany(companies, id), companies)
  {
    FilterIsSubsequence(companies, (c: Company) => c.id != id);
  }

  /** Deleting the company just added, under its fresh id, gives back the list before the add. */
  lemma RemoveAfterAdd(companies: seq<Company>, name: string, id: string, round1: string, round2: string,
                       round3: string)
    requires IdIsFresh(companies, id)
    ensures RemoveCompany(AddCompany(companies, name, id, round1, round2, round3), id) == companies
  {
    var keep := (c: Company) => c.id != id;
    var added := AddCompany(companies, name, id, round1, round2, round3);
    assert added == companies + [added[|companies|]];
    FilterAppend(companies, [added[|companies|]], keep);
    FilterKeepsAll(companies, keep);
    assert Filter([added[|companies|]], keep) == [];
  }

  /** Deleting a round keeps the surviving rounds of each company in their relative order. */
  lemma RemoveRoundKeepsOrder(companies: seq<Company>, companyId: string, roundId: string)
    ensures forall i :: 0 <= i < |companies| ==>
      IsSubsequence(RemoveRound(companies, companyId, roundId)[i].rounds, companies[i].rounds)
  {
    var r := RemoveRound(companies, companyId, roundId);
    forall i | 0 <= i < |companies| ensures IsSubsequence(r[i].rounds, companies[i].rounds) {
      if companies[i].id == companyId {
        FilterIsSubsequence(companies[i].rounds, (x: InterviewRound) => x.id != roundId);
      } else {
        SubsequenceOfItself(companies[i].rounds);
      }
    }
  }

  lemma {:induction false} SubsequenceOfItself<T>(s: seq<T>)
    ensures IsSubsequence(s, s)
  {
    if s != [] {
      SubsequenceOfItself(s[1..]);
    }
  }

  /** Deleting the round just added, under an id no round of that company has, gives back the list
      before the add. */
  lemma RemoveRoundAfterAddRound(companies: seq<Company>, companyId: string, roundId: string)
    requires !IdIsFresh(companies, companyId)
    requires forall i, k :: 0 <= i < |companies| && companies[i].id == companyId && 0 <= k < |companies[i].rounds| ==>
      companies[i].rounds[k].id != roundId
    ensures AddRound(companies, companyId, roundId).Some?
    ensures RemoveRound(AddRound(companies, companyId, roundId).value, companyId, roundId) == companies
  {
    var added := AddRound(companies, companyId, roundId).value;
    var r := RemoveRound(added, companyId, roundId);
    var keep := (x: InterviewRound) => x.id != roundId;
    forall i | 0 <= i < |companies| ensures r[i] == companies[i] {
      if companies[i].id == companyId {
        var old_rounds := companies[i].rounds;
        var new_rounds := added[i].rounds;
        assert new_rounds == old_rounds + [new_rounds[|old_rounds|]];
        FilterAppend(old_rounds, [new_rounds[|old_rounds|]], keep);
        FilterKeepsAll(old_rounds, keep);
        assert Filter([new_rounds[|old_rounds|]], keep) == [];
        assert r[i].rounds == old_rounds;
      }
    }
  }

  /** Of two status changes to the same company, the later one wins. */
  lemma SetApplicationStatusLastWins(companies: seq<Company>, id: string, first: Status, second: Status)
    ensures SetApplicationStatus(SetApplicationStatus(companies, id, first), id, second)
      == SetApplicationStatus(companies, id, second)
  {
  }

  /** A renamed company's name has no whitespace at either end, and renaming again with the stored
      name changes nothing. */
  lemma RenameCompanyStable(companies: seq<Company>, id: string, name: string)
    ensures var r := RenameCompany(companies, id, name);
      && (forall i :: 0 <= i < |r| && r[i].id == id && r[i].name != [] ==>
            !IsWhitespace(r[i].name[0]) && !IsWhitespace(r[i].name[|r[i].name| - 1]))
      && RenameCompany(r, id, Trim(name)) == r
  {
    TrimIdempotent(name);
  }
}
