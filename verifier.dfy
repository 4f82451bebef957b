/** `verifyPresentation` of states.go: every attachment of a received
    presentation is base64-decoded and parsed as a verifiable presentation whose
    signers' keys are resolved through the registry; the first failure stops
    the whole check. */
module PresentationVerifier {
  import opened Outcomes

  type Bytes = seq<bv8>

  /** An attachment of a presentation message. Only its base64 data is read:
      link and inline-JSON data are not supported by the verifier. */
  datatype Attachment = Attachment(base64: string)

  /** `base64.StdEncoding.DecodeString`, left abstract. */
  type Base64Decoder = string -> Outcome<Bytes>

  /** `verifiable.NewPresentation` with a public-key fetcher over the
      registry, left abstract: it accepts or rejects the decoded bytes. */
  type PresentationParser = Bytes -> Outcome<()>

  /** Why an attachment was refused, wrapping the foreign error's text. */
  datatype VerifyError =
    | DecodeString(cause: string)      // "decode string: %w"
    | NewPresentation(cause: string)   // "new presentation: %w"

  datatype Verdict = Verified | Rejected(error: VerifyError)

  /** One iteration of the loop: decode the attachment, then parse and verify it. */
  function CheckAttachment(decode: Base64Decoder, parse: PresentationParser, a: Attachment): Verdict
  {
    match decode(a.base64)
    case Failure(cause) => Rejected(DecodeString(cause))
    case Success(raw) =>
      match parse(raw)
      case Failure(cause) => Rejected(NewPresentation(cause))
      case Success(_) => Verified
  }

  /** True when every attachment of `atts` passes its check. */
  ghost predicate AllVerified(decode: Base64Decoder, parse: PresentationParser, atts: seq<Attachment>)
  {
    forall i | 0 <= i < |atts| :: CheckAttachment(decode, parse, atts[i]).Verified?
  }

  /** The loop over the attachments, returning at the first failure. */
  function VerifyPresentation(decode: Base64Decoder, parse: PresentationParser, atts: seq<Attachment>): (r: Verdict)
    ensures atts == [] ==> r == Verified
    ensures r.Verified? <==> AllVerified(decode, parse, atts)
    ensures r.Rejected? ==>
      exists i | 0 <= i < |atts| ::
        && r == CheckAttachment(decode, parse, atts[i])
        && AllVerified(decode, parse, atts[..i])
  {
    if atts == [] then Verified
    else
      match CheckAttachment(decode, parse, atts[0])
      case Rejected(e) =>
        assert AllVerified(decode, parse, atts[..0]);
        Rejected(e)
      case Verified =>
        var rest := VerifyPresentation(decode, parse, atts[1..]);
        assert rest.Rejected? ==> exists i | 1 <= i < |atts| ::
          rest == CheckAttachment(decode, parse, atts[i]) && AllVerified(decode, parse, atts[..i]) by {
          if rest.Rejected? {
            var j :| 0 <= j < |atts| - 1 && rest == CheckAttachment(decode, parse, atts[1..][j])
                     && AllVerified(decode, parse, atts[1..][..j]);
            assert atts[..j + 1] == [atts[0]] + atts[1..][..j];
          }
        }
        rest
  }

  /** The first failing attachment decides the result, whatever follows it. */
  lemma {:induction false} FirstFailureDecides(decode: Base64Decoder, parse: PresentationParser, atts: seq<Attachment>, i: nat)
    requires i < |atts|
    requires AllVerified(decode, parse, atts[..i])
    requires CheckAttachment(decode, parse, atts[i]).Rejected?
    ensures VerifyPresentation(decode, parse, atts) == CheckAttachment(decode, parse, atts[i])
  {
    if i > 0 {
      assert atts[..i][0] == atts[0];
      var before := atts[1..][..i - 1];
      forall j | 0 <= j < i - 1
        ensures CheckAttachment(decode, parse, before[j]).Verified?
      {
        assert before[j] == atts[..i][j + 1];
      }
      FirstFailureDecides(decode, parse, atts[1..], i - 1);
    }
  }

  /** Verifying a concatenation is verifying the first part, then the second
      only if the first passed. */
  lemma {:induction false} VerifyAppend(decode: Base64Decoder, parse: PresentationParser, a: seq<Attachment>, b: seq<Attachment>)
    ensures VerifyPresentation(decode, parse, a + b) ==
      if VerifyPresentation(decode, parse, a).Verified? then VerifyPresentation(decode, parse, b)
      else VerifyPresentation(decode, parse, a)
  {
    if a != [] {
      assert (a + b)[0] == a[0];
      assert (a + b)[1..] == a[1..] + b;
      VerifyAppend(decode, parse, a[1..], b);
    } else {
      assert a + b == b;
    }
  }
}
