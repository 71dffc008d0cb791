/** Everything that ends an invocation with exit status 1. */
module Failures {

  datatype Failure =
      /** CliError thrown by the HTTP client for a non-2xx response: message and status. */
    | ApiError(message: string, status: int)
      /** A 2xx response whose body is not JSON (res.json() rejects). */
    | MalformedResponse
      /** getApiKey found neither WAHLU_API_KEY nor a saved key. */
    | MissingApiKey
      /** resolveBrandId found no flag, no WAHLU_BRAND_ID and no saved default. */
    | MissingBrand
      /** auth login was given a key without a known prefix. */
    | InvalidKeyFormat
      /** media upload was given a file whose extension has no MIME type. */
    | UnsupportedFileType(ext: string)
      /** statSync threw for the file to upload. */
    | FileNotReadable
      /** The presigned PUT answered with a non-2xx status. */
    | UploadFailed(status: int)
      /** JSON.parse threw on the settings given to a platform flag. */
    | InvalidJson(flag: string)
}
