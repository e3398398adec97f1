/**
 * Properties that span several pages: where a user lands after a guard
 * turns them away, and what the other pages show once a form has stored
 * its row.
 */
module Journeys {
  import opened Types
  import opened Backend
  import opened Guards
  import opened Query
  import CompleteProfile
  import TutoringForm
  import ContentForm
  import StudentTutoring
  import TutorRequests
  import TutorDashboard

  /** A user with a profile who opens a page of the other role is sent to
      the profile-completion page, which forwards them to the dashboard of
      their own role, and that dashboard's guard lets them in. */
  lemma RoleMismatchEndsOnOwnDashboard(user: User, profiles: ProfileTable, required: UserRole)
    requires user.id in profiles && profiles[user.id].role != required
    ensures PageGuard(Some(user), profiles, required) == Redirect(CompleteProfile)
    ensures CompleteProfile.CompleteProfileEntry(Some(user), profiles) == Some(RoleHome(profiles[user.id].role))
    ensures RoleHome(profiles[user.id].role) != RoleHome(required)
    ensures PageGuard(Some(user), profiles, profiles[user.id].role) == Pass(profiles[user.id])
  {
  }

  /** A user without a profile is sent to the profile-completion page by
      every dashboard and stays there: the redirect does not loop. */
  lemma NoProfileStaysOnForm(user: User, profiles: ProfileTable, required: UserRole)
    requires user.id !in profiles
    ensures PageGuard(Some(user), profiles, required) == Redirect(CompleteProfile)
    ensures CompleteProfile.CompleteProfileEntry(Some(user), profiles) == None
  {
  }

  /** A request a student submits is, once stored, pending on the student's
      own tutoring page and on every tutor's request page. */
  lemma NewRequestIsPendingEverywhere(form: TutoringForm.TutoringFormData, uid: string,
                                      requests: seq<TutoringRequest>, id: string, now: int, tutor: string)
    requires TutoringForm.ValidateTutoringRequest(form, Some(uid)).Ok?
    ensures var stored := TutoringForm.StoredRequest(TutoringForm.ValidateTutoringRequest(form, Some(uid)).value, id, now);
      var after := requests + [stored];
      && stored in StudentTutoring.StudentTabs(uid, after).pending
      && stored in TutorRequests.TutorTabs(tutor, after).pending
      && stored !in TutorRequests.TutorTabs(tutor, after).accepted
      && stored !in StudentTutoring.StudentTabs(uid, after).accepted
  {
    var stored := TutoringForm.StoredRequest(TutoringForm.ValidateTutoringRequest(form, Some(uid)).value, id, now);
    assert stored in requests + [stored];
  }

  /** Content a tutor stores raises that tutor's content count by one. */
  lemma NewContentIsCounted(form: ContentForm.ContentFormData, uid: string, content: seq<EducationalContent>,
                            id: string, now: int)
    requires ContentForm.ValidateContent(form, Some(uid)).Ok?
    ensures var stored := ContentForm.StoredContent(ContentForm.ValidateContent(form, Some(uid)).value, id, now);
      TutorDashboard.ContentCount(uid, content + [stored]) == TutorDashboard.ContentCount(uid, content) + 1
  {
    var stored := ContentForm.StoredContent(ContentForm.ValidateContent(form, Some(uid)).value, id, now);
    var after := content + [stored];
    var before := set i | 0 <= i < |content| && content[i].createdBy == Some(uid);
    var positions := set i | 0 <= i < |after| && after[i].createdBy == Some(uid);
    assert positions == before + {|content|} by {
      forall i ensures i in positions <==> i in before + {|content|} {
        if 0 <= i < |content| { assert after[i] == content[i]; }
      }
    }
    assert |content| !in before;
  }
}
