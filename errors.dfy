/**
 * The exceptions `GptModel` raises, as values. Each wrapping constructor stands
 * for a place where the source catches an exception and raises a new one whose
 * message embeds the old one.
 */
module Errors {

  datatype Error =
    | MissingApiKey                         // neither `from_dotenv` nor an `ApiKey` was given
    | MissingDotenvKey                      // `.env` has no OPENAI_API_KEY entry
    | UnsupportedVersion(version: string)   // the version is not in `model_versions`
    | Creating(cause: Error)                // "Error while cretaing Model Object : ..."
    | UnsupportedModel(model: string)       // `response_price` on a model it has no rates for
    | NotAnInteger(field: string)           // a usage field is absent or `int()` rejects it
    | TokenConversion(cause: Error)         // "Error converting token counts to int..."
    | UnexpectedFinishReason(reason: string)
    | MaxContextExceeded                    // the budget check of `request`
    | ServiceError(message: string)         // the completion call itself failed
    | Requesting(cause: Error)              // "Error Requesting : ..."
}
