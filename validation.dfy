/** `validateRssUrl` and `validateRssContent`. The schema has three rules on
    the `url` field: `required` (the string is not empty), `url` (yup's URL
    test, the parameter `isUrl` here) and `notOneOf(existingUrls)`. The schema
    is validated with `abortEarly: false`, so every failing rule reports its
    message, and the returned promise always resolves, with an outcome value. */
module Validation {
  import opened Common

  const RequiredMessage: string := "Не должно быть пустым"
  const UrlMessage: string := "Ссылка должна быть валидным URL"
  const DuplicateMessage: string := "RSS уже существует"

  /** `{ isValid, errors }` */
  datatype UrlValidation = UrlValidation(isValid: bool, errors: seq<string>)

  /** `{ isValid, error }` */
  datatype ContentValidation = ContentValidation(isValid: bool, error: Option<string>)

  /** The messages of the rules `url` fails, in the order the schema declares them:
      the `inner` errors of the rejection, or nothing when validation passes.
      yup's URL test is a pattern match that skips the empty string, so `""`
      breaks only the `required` rule (and `notOneOf` when it is listed). */
  function FailedRules(isUrl: string -> bool, url: string, existingUrls: seq<string>): (messages: seq<string>)
    ensures RequiredMessage in messages <==> url == ""
    ensures UrlMessage in messages <==> url != "" && !isUrl(url)
    ensures DuplicateMessage in messages <==> url in existingUrls
    ensures forall m :: m in messages ==> m in {RequiredMessage, UrlMessage, DuplicateMessage}
    ensures |messages| <= 3
  {
    (if url == "" then [RequiredMessage] else [])
    + (if url != "" && !isUrl(url) then [UrlMessage] else [])
    + (if url in existingUrls then [DuplicateMessage] else [])
  }

  /** The resolved value of `validateRssUrl(url, existingUrls)`; `existingUrls` defaults to `[]`. */
  function ValidateRssUrl(isUrl: string -> bool, url: string, existingUrls: seq<string> := []): (r: UrlValidation)
    ensures r.isValid <==> r.errors == []
    ensures r.isValid <==> url != "" && isUrl(url) && url !in existingUrls
    ensures r.errors == FailedRules(isUrl, url, existingUrls)
  {
    var inner := FailedRules(isUrl, url, existingUrls);
    if inner == [] then UrlValidation(true, []) else UrlValidation(false, inner)
  }

  /** An address already in the list is refused with the duplicate message. */
  lemma DuplicateRefused(isUrl: string -> bool, url: string, existingUrls: seq<string>)
    requires url in existingUrls
    ensures !ValidateRssUrl(isUrl, url, existingUrls).isValid
    ensures DuplicateMessage in ValidateRssUrl(isUrl, url, existingUrls).errors
  {
  }

  /** The empty string is refused with the `required` message, and with
      nothing else unless the empty string is itself listed. */
  lemma EmptyRefused(isUrl: string -> bool, existingUrls: seq<string>)
    ensures !ValidateRssUrl(isUrl, "", existingUrls).isValid
    ensures RequiredMessage in ValidateRssUrl(isUrl, "", existingUrls).errors
    ensures "" !in existingUrls ==> ValidateRssUrl(isUrl, "", existingUrls).errors == [RequiredMessage]
    ensures "" in existingUrls ==> ValidateRssUrl(isUrl, "", existingUrls).errors == [RequiredMessage, DuplicateMessage]
  {
  }

  /** With the default `existingUrls = []` the duplicate rule never fires. */
  lemma DefaultListHasNoDuplicates(isUrl: string -> bool, url: string)
    ensures DuplicateMessage !in ValidateRssUrl(isUrl, url).errors
    ensures ValidateRssUrl(isUrl, url).isValid <==> url != "" && isUrl(url)
  {
  }

  /** Each failing rule contributes exactly one message, so the number of
      errors is the number of rules broken. */
  lemma ErrorCountIsRulesBroken(isUrl: string -> bool, url: string, existingUrls: seq<string>)
    ensures |ValidateRssUrl(isUrl, url, existingUrls).errors|
      == (if url == "" then 1 else 0) + (if url != "" && !isUrl(url) then 1 else 0) + (if url in existingUrls then 1 else 0)
  {
  }

  /** `validateRssContent()` resolves, after a delay, to a success with no error. */
  function ValidateRssContent(): (r: ContentValidation)
    ensures r.isValid && r.error == None
  {
    ContentValidation(true, None)
  }
}
