/** Process-wide constants shared by the two tools (server.py:10). */
module Config {

  /** Origin of the legal-document portal. */
  const BaseUrl: string := "https://adala.justice.gov.ma"

  /** Directory, relative to the working directory, that downloads are saved in. */
  const DownloadsDir: string := "downloads"
}
