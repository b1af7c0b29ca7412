/**
 * The email service's `getEmails`: the emails the API returns, each with its
 * `preview` replaced by the first 100 characters of its body and "...".
 */
module EmailService {
  import opened Wrappers

  datatype Email = Email(
    id: string, subject: string, sender: string, recipient: string, body: string, date: string, preview: string)

  const PreviewLength := 100

  /** `body.substring(0, 100) + '...'`: the suffix is added whatever the body's length. */
  function Preview(body: string): (p: string)
    ensures |p| == (if |body| < PreviewLength then |body| else PreviewLength) + 3
    ensures p[..|p| - 3] == body[..|p| - 3]
    ensures p[|p| - 3..] == "..."
  {
    var n := if |body| < PreviewLength then |body| else PreviewLength;
    body[..n] + "..."
  }

  /** The spread `{ ...email, preview }`: every field copied, the preview overridden. */
  function WithPreview(e: Email): (r: Email)
    ensures r.id == e.id && r.subject == e.subject && r.sender == e.sender
    ensures r.recipient == e.recipient && r.body == e.body && r.date == e.date
    ensures r.preview == Preview(e.body)
  {
    e.(preview := Preview(e.body))
  }

  /** `getEmails`: the response's emails in order, each with its preview; an API error is passed on. */
  function GetEmails(response: Result<seq<Email>>): (r: Result<seq<Email>>)
    ensures r.Err? <==> response.Err?
    ensures r.Err? ==> r.error == response.error
    ensures r.Ok? ==> |r.value| == |response.value|
    ensures r.Ok? ==> forall i :: 0 <= i < |r.value| ==> r.value[i] == WithPreview(response.value[i])
  {
    match response
    case Ok(emails) => Ok(seq(|emails|, i requires 0 <= i < |emails| => WithPreview(emails[i])))
    case Err(e) => Err(e)
  }

  /** A body of at most 100 characters appears whole in front of the "...". */
  lemma ShortBodyWhole(body: string)
    requires |body| <= PreviewLength
    ensures Preview(body) == body + "..."
  {
  }

  /** Bodies that agree on their first 100 characters have the same preview. */
  lemma PreviewOnlyFirstHundred(b1: string, b2: string)
    requires |b1| >= PreviewLength && |b2| >= PreviewLength && b1[..PreviewLength] == b2[..PreviewLength]
    ensures Preview(b1) == Preview(b2)
  {
  }

  /** Deriving the previews again changes nothing: the preview depends on the body alone. */
  lemma GetEmailsIdempotent(response: Result<seq<Email>>)
    ensures GetEmails(GetEmails(response)) == GetEmails(response)
  {
    if response.Ok? {
      var once := GetEmails(response).value;
      var twice := GetEmails(GetEmails(response)).value;
      assert |twice| == |once|;
      forall i | 0 <= i < |once| ensures twice[i] == once[i] {
        assert once[i].body == response.value[i].body;
      }
      assert twice == once;
    }
  }
}
