/** The enumerations the job board shares between its screens. */
module Constants {

  /** The user types a profile is tagged with. */
  const CompanyType := "company"
  const JobSeekerType := "job_seeker"

  const JobTypes: seq<string> := ["Full-time", "Part-time", "Internship", "Contract", "Freelance"]

  const ExperienceLevels: seq<string> := ["Entry Level", "Mid Level", "Senior Level", "Executive"]

  const Industries: seq<string> :=
    [ "Technology", "Healthcare", "Finance", "Education", "Marketing", "Sales",
      "Design", "Enginnering", "Human Resource", "Operation", "Customer Service", "Other" ]

  const Locations: seq<string> := ["Remote", "Colombo", "Kandy", "Gampaha", "Jaffna", "Galle", "Hambanthota"]
}
