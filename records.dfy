/**
 * The records the pages exchange with the database: jobs, job types and
 * applications. Optional columns are `Option`s; an absent and a `null`
 * column are both `None`.
 */
module Records {
  import opened Wrappers
  import opened Json

  datatype Job = Job(
    id: string,
    title: string,
    slug: string,
    shortDescription: Option<string>,
    description: Option<string>,
    overview: Option<string>,
    positionSummary: Option<string>,
    responsibilities: Option<string>,
    requirements: Option<string>,
    qualifications: Option<string>,
    benefits: Option<string>,
    location: Option<string>,
    salary: Option<string>,
    jobTypeId: Option<string>,
    status: Option<string>,
    createdAt: Option<string>)

  datatype JobType = JobType(id: string, name: string)

  /**
   * An application row. `position` is read by the admin search although the
   * row type does not declare it; it is kept here as one more optional column.
   */
  datatype Application = Application(
    id: string,
    jobId: Option<string>,
    fullName: Option<string>,
    email: Option<string>,
    phoneNumber: Option<string>,
    location: Option<string>,
    howHeard: Option<string>,
    whyInterested: Option<string>,
    experience: Option<string>,
    resumePath: Option<string>,
    resumeUrl: Option<string>,
    coverLetterPath: Option<string>,
    coverLetterUrl: Option<string>,
    agreeDataSharing: Option<bool>,
    status: Option<string>,
    createdAt: Option<string>,
    position: Option<string>)

  /** A job as the JSON object sent in a request body. */
  function JobJson(job: Job): Value {
    Obj(map[
      "id" := Str(job.id),
      "title" := Str(job.title),
      "slug" := Str(job.slug),
      "short_description" := OptionalStr(job.shortDescription),
      "description" := OptionalStr(job.description),
      "overview" := OptionalStr(job.overview),
      "position_summary" := OptionalStr(job.positionSummary),
      "responsibilities" := OptionalStr(job.responsibilities),
      "requirements" := OptionalStr(job.requirements),
      "qualifications" := OptionalStr(job.qualifications),
      "benefits" := OptionalStr(job.benefits),
      "location" := OptionalStr(job.location),
      "salary" := OptionalStr(job.salary),
      "job_type_id" := OptionalStr(job.jobTypeId),
      "status" := OptionalStr(job.status),
      "created_at" := OptionalStr(job.createdAt)])
  }
}
