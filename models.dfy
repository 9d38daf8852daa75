/**
 * The Eloquent models the controllers read and create, and the database
 * holding them, as in-memory stores keyed by auto-increment ids.
 */
module Models {
  import opened Common

  /** A job_vacancies row; nullable columns are options. `companyName` is None when the job has no company. */
  datatype JobVacancy = JobVacancy(
    title: Option<string>,
    description: Option<string>,
    requirements: Option<string>,
    location: Option<string>,
    jobType: Option<string>,
    companyName: Option<string>,
    createdAt: int)

  /** The authenticated user, `auth()->user()`. */
  datatype User = User(id: nat, name: string, email: string)

  /** The JSON object stored in a resume's contactDetails column. */
  datatype ContactDetails = ContactDetails(name: string, email: string)

  datatype Resume = Resume(
    filename: string,
    fileUrl: string,
    userId: nat,
    contactDetails: ContactDetails,
    summary: Option<string>,
    skills: Option<string>,
    experience: Option<string>,
    education: Option<string>)

  datatype JobApplication = JobApplication(
    status: string,
    aiGeneratedScore: int,
    aiGeneratedFeedback: string,
    jobVacancyId: nat,
    userId: nat,
    resumeId: nat)

  class Database {
    var vacancies: map<nat, JobVacancy>
    var resumes: map<nat, Resume>
    var applications: seq<JobApplication>
    var nextResumeId: nat

    /** Every resume id in use is below the next auto-increment value. */
    ghost predicate Valid()
      reads this
    {
      forall id :: id in resumes ==> id < nextResumeId
    }

    constructor (vacancies: map<nat, JobVacancy>)
      ensures Valid()
      ensures this.vacancies == vacancies && resumes == map[] && applications == []
    {
      this.vacancies := vacancies;
      resumes := map[];
      applications := [];
      nextResumeId := 1;
    }

    /** JobVacancy::find($id) */
    method FindVacancy(id: nat) returns (v: Option<JobVacancy>)
      ensures v == if id in vacancies then Some(vacancies[id]) else None
    {
      v := if id in vacancies then Some(vacancies[id]) else None;
    }

    /** Resume::find($id) */
    method FindResume(id: nat) returns (r: Option<Resume>)
      ensures r == if id in resumes then Some(resumes[id]) else None
    {
      r := if id in resumes then Some(resumes[id]) else None;
    }

    /** Resume::create([...]): stores the row under a fresh id. */
    method CreateResume(r: Resume) returns (id: nat)
      requires Valid()
      modifies this
      ensures Valid()
      ensures id == old(nextResumeId) && id !in old(resumes)
      ensures nextResumeId == old(nextResumeId) + 1
      ensures resumes == old(resumes)[id := r]
      ensures vacancies == old(vacancies) && applications == old(applications)
    {
      id := nextResumeId;
      resumes := resumes[id := r];
      nextResumeId := nextResumeId + 1;
    }

    /** JobApplication::create([...]) */
    method CreateApplication(a: JobApplication)
      requires Valid()
      modifies this
      ensures Valid()
      ensures applications == old(applications) + [a]
      ensures vacancies == old(vacancies) && resumes == old(resumes) && nextResumeId == old(nextResumeId)
    {
      applications := applications + [a];
    }
  }
}
