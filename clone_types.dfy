/** The clone workflow's input and result records. */
module CloneTypes {

  /** `{ repoUrl, ref }`: what a clone is started with. */
  datatype CloneInput = CloneInput(repoUrl: string, ref: string)

  /** `{ sha, path }`: what a completed clone workflow returns. */
  datatype CloneResult = CloneResult(sha: string, path: string)
}
