/** The company tracker page (client/src/pages/CompanyTracker.tsx) as an object: the company list,
    the storage cell under the key 'company-tracker', and the form state its handlers read and
    clear. Each handler builds the new list with a function of module CompanyList and hands it to
    `SaveCompanies`, which adopts it only once the storage write has succeeded. */
module CompanyTrackerPage {
  import opened Common
  import opened Text
  import opened CompanyList

  class CompanyTracker {
    /** The `companies` state. */
    var companies: seq<Company>
    /** What local storage holds under 'company-tracker'. */
    var stored: Option<seq<Company>>
    /** The text of the "new company" input. */
    var newCompanyName: string
    /** The company whose name is being edited, and the edited text. */
    var editingId: Option<string>
    var editingName: string
    /** The round whose name is being edited, and the edited text. */
    var editingRoundId: Option<string>
    var editingRoundName: string
    /** The review dialog: whether it is open, the company it is for, and the text typed. */
    var reviewDialogOpen: bool
    var currentReviewId: Option<string>
    var currentReview: string

    /** The list shown is the list stored, whenever anything is stored. */
    ghost predicate InSync()
      reads this
    {
      stored.Some? ==> stored.value == companies
    }

    /** The page before its mount effect: an empty list, empty forms, storage as found. */
    constructor (storage: Option<seq<Company>>)
      ensures companies == [] && stored == storage
      ensures newCompanyName == "" && editingId == None && editingName == ""
      ensures editingRoundId == None && editingRoundName == ""
      ensures !reviewDialogOpen && currentReviewId == None && currentReview == ""
    {
      companies := [];
      stored := storage;
      newCompanyName := "";
      editingId := None;
      editingName := "";
      editingRoundId := None;
      editingRoundName := "";
      reviewDialogOpen := false;
      currentReviewId := None;
      currentReview := "";
    }

    /** `loadCompanies`: adopts the stored list if there is one. */
    method LoadCompanies()
      modifies this`companies
      ensures stored.Some? ==> companies == stored.value
      ensures stored.None? ==> companies == old(companies)
      ensures old(InSync()) || stored.Some? ==> InSync()
    {
      if stored.Some? {
        companies := stored.value;
      }
    }

    /** `saveCompanies(updated)`: the list is written first and adopted only if the write succeeded
        (`writeOk`); a failed write leaves both the list and storage as they were. */
    method SaveCompanies(updated: seq<Company>, writeOk: bool)
      modifies this`companies, this`stored
      ensures writeOk ==> companies == updated && stored == Some(updated)
      ensures !writeOk ==> companies == old(companies) && stored == old(stored)
      ensures old(InSync()) ==> InSync()
    {
      if writeOk {
        stored := Some(updated);
        companies := updated;
      }
    }

    /** `addCompany()`: a blank name changes nothing; otherwise the new company (with the fresh ids
        the random UUIDs stand for) is saved at the end and the input is cleared, even when the
        write fails. */
    method AddCompany(companyId: string, round1: string, round2: string, round3: string, writeOk: bool)
      requires IdIsFresh(companies, companyId)
      modifies this`companies, this`stored, this`newCompanyName
      ensures IsBlank(old(newCompanyName)) ==>
        companies == old(companies) && stored == old(stored) && newCompanyName == old(newCompanyName)
      ensures !IsBlank(old(newCompanyName)) ==> newCompanyName == ""
      ensures !IsBlank(old(newCompanyName)) && writeOk ==>
        companies == CompanyList.AddCompany(old(companies), old(newCompanyName), companyId, round1, round2, round3)
        && stored == Some(companies)
      ensures !writeOk ==> companies == old(companies) && stored == old(stored)
      ensures old(InSync()) ==> InSync()
    {
      if Trim(newCompanyName) == [] {
        return;
      }
      var updated := CompanyList.AddCompany(companies, newCompanyName, companyId, round1, round2, round3);
      SaveCompanies(updated, writeOk);
      newCompanyName := "";
    }

    /** `updateApplicationStatus(id, status)`. */
    method UpdateApplicationStatus(id: string, status: Status, writeOk: bool)
      modifies this`companies, this`stored
      ensures companies == if writeOk then SetApplicationStatus(old(companies), id, status) else old(companies)
      ensures stored == if writeOk then Some(companies) else old(stored)
      ensures old(InSync()) ==> InSync()
    {
      var updated := SetApplicationStatus(companies, id, status);
      SaveCompanies(updated, writeOk);
    }

    /** `updateRoundStatus(companyId, roundId, status)`. */
    method UpdateRoundStatus(companyId: string, roundId: string, status: Status, writeOk: bool)
      modifies this`companies, this`stored
      ensures companies == if writeOk then SetRoundStatus(old(companies), companyId, roundId, status) else old(companies)
      ensures stored == if writeOk then Some(companies) else old(stored)
      ensures old(InSync()) ==> InSync()
    {
      var updated := SetRoundStatus(companies, companyId, roundId, status);
      SaveCompanies(updated, writeOk);
    }

    /** `deleteCompany(id)`. */
    method DeleteCompany(id: string, writeOk: bool)
      modifies this`companies, this`stored
      ensures companies == if writeOk then RemoveCompany(old(companies), id) else old(companies)
      ensures stored == if writeOk then Some(companies) else old(stored)
      ensures old(InSync()) ==> InSync()
    {
      var updated := RemoveCompany(companies, id);
      SaveCompanies(updated, writeOk);
    }

    /** `startEditingCompany(company)`: opens the name editor on that company. */
    method StartEditingCompany(company: Company)
      modifies this`editingId, this`editingName
      ensures editingId == Some(company.id) && editingName == company.name
    {
      editingId := Some(company.id);
      editingName := company.name;
    }

    /** `saveCompanyName(id)`: a blank edited name changes nothing and leaves the editor open;
        otherwise the trimmed name is saved and the editor closed, even when the write fails. */
    method SaveCompanyName(id: string, writeOk: bool)
      modifies this`companies, this`stored, this`editingId, this`editingName
      ensures IsBlank(old(editingName)) ==>
        && companies == old(companies) && stored == old(stored)
        && editingId == old(editingId) && editingName == old(editingName)
      ensures !IsBlank(old(editingName)) ==> editingId == None && editingName == ""
      ensures !IsBlank(old(editingName)) && writeOk ==>
        companies == RenameCompany(old(companies), id, old(editingName)) && stored == Some(companies)
      ensures !writeOk ==> companies == old(companies) && stored == old(stored)
      ensures old(InSync()) ==> InSync()
    {
      if Trim(editingName) == [] {
        return;
      }
      var updated := RenameCompany(companies, id, editingName);
      SaveCompanies(updated, writeOk);
      editingId := None;
      editingName := "";
    }

    /** `startEditingRound(round)`: opens the name editor on that round. */
    method StartEditingRound(round: InterviewRound)
      modifies this`editingRoundId, this`editingRoundName
      ensures editingRoundId == Some(round.id) && editingRoundName == round.name
    {
      editingRoundId := Some(round.id);
      editingRoundName := round.name;
    }

    /** `saveRoundName(companyId, roundId)`: a blank edited name changes nothing and leaves the
        editor open; otherwise the trimmed name is saved and the editor closed. */
    method SaveRoundName(companyId: string, roundId: string, writeOk: bool)
      modifies this`companies, this`stored, this`editingRoundId, this`editingRoundName
      ensures IsBlank(old(editingRoundName)) ==>
        && companies == old(companies) && stored == old(stored)
        && editingRoundId == old(editingRoundId) && editingRoundName == old(editingRoundName)
      ensures !IsBlank(old(editingRoundName)) ==> editingRoundId == None && editingRoundName == ""
      ensures !IsBlank(old(editingRoundName)) && writeOk ==>
        companies == RenameRound(old(companies), companyId, roundId, old(editingRoundName))
        && stored == Some(companies)
      ensures !writeOk ==> companies == old(companies) && stored == old(stored)
      ensures old(InSync()) ==> InSync()
    {
      if Trim(editingRoundName) == [] {
        return;
      }
      var updated := RenameRound(companies, companyId, roundId, editingRoundName);
      SaveCompanies(updated, writeOk);
      editingRoundId := None;
      editingRoundName := "";
    }

    /** `openReviewDialog(company)`: the dialog opens on that company with its current review. */
    method OpenReviewDialog(company: Company)
      modifies this`currentReviewId, this`currentReview, this`reviewDialogOpen
      ensures currentReviewId == Some(company.id) && currentReview == company.review && reviewDialogOpen
    {
      currentReviewId := Some(company.id);
      currentReview := company.review;
      reviewDialogOpen := true;
    }

    /** `saveReview()`: without a selected company (no id, or the falsy empty id) nothing happens;
        otherwise the typed review is saved verbatim and the dialog closed and cleared. */
    method SaveReview(writeOk: bool)
      modifies this`companies, this`stored, this`reviewDialogOpen, this`currentReviewId, this`currentReview
      ensures old(currentReviewId).None? || old(currentReviewId) == Some("") ==>
        && companies == old(companies) && stored == old(stored) && reviewDialogOpen == old(reviewDialogOpen)
        && currentReviewId == old(currentReviewId) && currentReview == old(currentReview)
      ensures old(currentReviewId).Some? && old(currentReviewId) != Some("") ==>
        && companies == (if writeOk then SetReview(old(companies), old(currentReviewId).value, old(currentReview))
                         else old(companies))
        && stored == (if writeOk then Some(companies) else old(stored))
        && !reviewDialogOpen && currentReviewId == None && currentReview == ""
      ensures old(InSync()) ==> InSync()
    {
      if currentReviewId.None? || currentReviewId.value == "" {
        return;
      }
      var updated := SetReview(companies, currentReviewId.value, currentReview);
      SaveCompanies(updated, writeOk);
      reviewDialogOpen := false;
      currentReviewId := None;
      currentReview := "";
    }

    /** `deleteRound(companyId, roundId)`. */
    method DeleteRound(companyId: string, roundId: string, writeOk: bool)
      modifies this`companies, this`stored
      ensures companies == if writeOk then RemoveRound(old(companies), companyId, roundId) else old(companies)
      ensures stored == if writeOk then Some(companies) else old(stored)
      ensures old(InSync()) ==> InSync()
    {
      var updated := RemoveRound(companies, companyId, roundId);
      SaveCompanies(updated, writeOk);
    }

    /** `addRound(companyId)`: an unknown company changes nothing (nothing is saved); otherwise the
        new round, under the fresh id `roundId`, is saved. */
    method AddRound(companyId: string, roundId: string, writeOk: bool)
      modifies this`companies, this`stored
      ensures IdIsFresh(old(companies), companyId) ==> companies == old(companies) && stored == old(stored)
      ensures !IdIsFresh(old(companies), companyId) ==>
        && companies == (if writeOk then CompanyList.AddRound(old(companies), companyId, roundId).value else old(companies))
        && stored == (if writeOk then Some(companies) else old(stored))
      ensures old(InSync()) ==> InSync()
    {
      var found := FindCompany(companies, companyId);
      if found.None? {
        return;
      }
      var updated := CompanyList.AddRound(companies, companyId, roundId);
      SaveCompanies(updated.value, writeOk);
    }
  }
}
