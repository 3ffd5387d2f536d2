/**
  The contract the adapter relies on from the extractors it dispatches to.

  A registered entry of the adapter is a type (a `Kind`), not an instance.
  Instantiating a kind by reflection yields an object that either implements
  the extractor interface or does not; when it does, the object answers
  "do I handle this URL?" and produces media descriptors for a URL. The
  concrete site extractors are not part of this model, so both answers are
  carried by the kind as deterministic functions of the URL.
*/
module Extractors {
  import opened Wrappers

  /** A URL as the adapter passes it to the extractors. */
  type Url = string

  /** A media descriptor; the adapter never looks inside one. */
  type MediaInfo

  /** One subscriber of a progress or completion event. */
  datatype Handler = Handler(name: string)

  /** The exceptions that reach the adapter's caller. */
  datatype Exception =
    | NotSupported(message: string)            // System.NotSupportedException
    | InvalidCast(typeName: string)            // a hard cast of an instance of this type failed
    | Thrown(typeName: string, message: string) // anything an extractor itself throws

  /**
    An extractor type. `isExtractor` says whether an instance of the type
    implements the extractor interface; `matches` and `extract` are what the
    instance's IsMatch and GetMediaInfosAsync answer.
  */
  datatype Kind = Kind(
    name: string,
    isExtractor: bool,
    matches: Url -> bool,
    extract: Url -> Result<seq<MediaInfo>, Exception>)

  /**
    An instantiated extractor. Its behaviour is that of its kind; its state is
    the invocation lists of its two events, which the adapter extends.
  */
  class Extractor {
    const kind: Kind
    var onProcess: seq<Handler>
    var onCompleted: seq<Handler>

    /** Instantiation of a kind whose instances implement the extractor interface. */
    constructor (kind: Kind)
      requires kind.isExtractor
      ensures this.kind == kind
      ensures onProcess == [] && onCompleted == []
    {
      this.kind := kind;
      onProcess := [];
      onCompleted := [];
    }

    /**
      `OnProcess += d`: combining delegates concatenates their invocation
      lists, and combining with a null delegate (the empty list) changes nothing.
    */
    method AddOnProcess(d: seq<Handler>)
      modifies this
      ensures onProcess == old(onProcess) + d
      ensures onCompleted == old(onCompleted)
    {
      onProcess := onProcess + d;
    }

    /** `OnCompleted += d`, as for AddOnProcess. */
    method AddOnCompleted(d: seq<Handler>)
      modifies this
      ensures onCompleted == old(onCompleted) + d
      ensures onProcess == old(onProcess)
    {
      onCompleted := onCompleted + d;
    }

    /** The extraction itself: success with descriptors, or what it throws. */
    method GetMediaInfos(url: Url) returns (r: Result<seq<MediaInfo>, Exception>)
      ensures r == kind.extract(url)
    {
      r := kind.extract(url);
    }
  }
}
