/** The sentinel strings of the bot's configuration object (config.js). */
module Config {
  /** Check-run title when no linter found anything. */
  const NoIssuesTitle: string := "No issues found"
  /** Check-run summary when no linter found anything. */
  const NoIssuesSummary: string := "There were no issues found."
  /** Check-run title when at least one issue was found. */
  const IssuesFoundTitle: string := "Issues found"
  /** The fixed relative directory under which every pull request's files are staged. */
  const CacheRoot: string := "cache"
}
