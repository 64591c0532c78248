/** The conversion between `model.Subject` and the gRPC wire enum (api/grpc/subject). */
module SubjectCodec {
  import opened Wrappers
  import opened Grpc
  import opened Model

  /** The wire enum `subject.Subject`: its two named values and any other number a peer may send. */
  datatype Wire = WireInterests | WirePublishEvents | WireOther(n: int)

  /** `subject.Encode`: only Interests and PublishEvents have a wire value; the error is not a status error. */
  function Encode(s: Subject): (r: Result<Wire, Error>)
    ensures s == SubjectInterests ==> r == Success(WireInterests)
    ensures s == SubjectPublishEvents ==> r == Success(WirePublishEvents)
    ensures s != SubjectInterests && s != SubjectPublishEvents ==> r.Failure? && r.error.Plain?
  {
    if s == SubjectInterests then Success(WireInterests)
    else if s == SubjectPublishEvents then Success(WirePublishEvents)
    else Failure(Plain("invalid subject"))
  }

  /** `subject.Decode`: an unknown wire value is an InvalidArgument status error. */
  function Decode(w: Wire): (r: Result<Subject, Error>)
    ensures w == WireInterests ==> r == Success(SubjectInterests)
    ensures w == WirePublishEvents ==> r == Success(SubjectPublishEvents)
    ensures w.WireOther? ==> r.Failure? && CodeOf(Some(r.error)) == InvalidArgument
  {
    match w
    case WireInterests => Success(SubjectInterests)
    case WirePublishEvents => Success(SubjectPublishEvents)
    case WireOther(_) => Failure(Status(InvalidArgument, "invalid subject"))
  }

  /** Decoding undoes encoding on every subject that encodes, and the subjects that encode are exactly the two named ones. */
  lemma DecodeEncode(s: Subject)
    ensures Encode(s).Success? <==> (s == SubjectInterests || s == SubjectPublishEvents)
    ensures Encode(s).Success? ==> Decode(Encode(s).value) == Success(s)
  {
  }

  /** Encoding undoes decoding on every wire value that decodes. */
  lemma EncodeDecode(w: Wire)
    ensures Decode(w).Success? ==> Encode(Decode(w).value) == Success(w)
  {
  }
}
