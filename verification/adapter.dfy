/**
  The extractor adapter: an ordered registry of extractor types that answers
  whether a URL is supported and dispatches an extraction to the first
  registered type whose instance accepts the URL, relaying its events.

  The selection queries are pure scans over the registered list and are
  modelled as functions; the registered list and the events' invocation
  lists are object state, changed by the constructor and by dispatch.
*/
module MediaGetCore {
  import opened Wrappers
  import opened Extractors

  /**
    The position of the first element of `s` satisfying `p`, scanning from
    the front as a lazy query with FirstOrDefault or List.Exists does.
  */
  function FirstIndex<T>(s: seq<T>, p: T -> bool): (r: Option<nat>)
    ensures r.Some? ==> r.value < |s| && p(s[r.value])
    ensures r.Some? ==> forall j :: 0 <= j < r.value ==> !p(s[j])
    ensures r.None? <==> forall j :: 0 <= j < |s| ==> !p(s[j])
  {
    if |s| == 0 then None
    else if p(s[0]) then Some(0)
    else match FirstIndex(s[1..], p)
      case None => None
      case Some(i) => Some(i + 1)
  }

  /** Searching a concatenation: the first part is searched first, the second only if the first has no hit. */
  lemma {:induction false} FirstIndexAppend<T>(a: seq<T>, b: seq<T>, p: T -> bool)
    ensures FirstIndex(a + b, p) ==
      match FirstIndex(a, p)
      case Some(i) => Some(i)
      case None => match FirstIndex(b, p) case Some(j) => Some(|a| + j) case None => None
  {
    if |a| != 0 && !p(a[0]) {
      assert (a + b)[1..] == a[1..] + b;
      FirstIndexAppend(a[1..], b, p);
    } else if |a| == 0 {
      assert a + b == b;
    }
  }

  /**
    Whether dispatch may pick a kind for `url`: its instance survives the
    `as` cast to the extractor interface and reports a match. A failed cast
    gives null, and `?.` followed by `?? false` turns a null candidate into
    no match.
  */
  function Selectable(k: Kind, url: Url): (r: bool)
    ensures !k.isExtractor ==> !r
    ensures k.isExtractor ==> (r <==> k.matches(url))
  {
    k.isExtractor && k.matches(url)
  }

  /** The selection query of dispatch: the position of the kind whose instance handles `url`. */
  function Select(kinds: seq<Kind>, url: Url): (r: Option<nat>)
    ensures r.Some? ==> r.value < |kinds| && kinds[r.value].isExtractor && kinds[r.value].matches(url)
    ensures r.Some? ==> forall j :: 0 <= j < r.value ==> !Selectable(kinds[j], url)
    ensures r.None? <==> forall j :: 0 <= j < |kinds| ==> !Selectable(kinds[j], url)
  {
    FirstIndex(kinds, (k: Kind) => Selectable(k, url))
  }

  /** The message of the exception thrown when no registered kind handles a URL. */
  const NoSupportMessage: string := "配接器內未含有支援項目實體"

  /**
    What dispatch returns for `url` over the registered `kinds`: the
    NotSupported exception when no kind is selectable, and otherwise exactly
    what the first selectable kind's extractor returns or throws.
  */
  function Dispatch(kinds: seq<Kind>, url: Url): (r: Result<seq<MediaInfo>, Exception>)
    ensures (forall j :: 0 <= j < |kinds| ==> !Selectable(kinds[j], url)) ==>
              r == Failure(NotSupported(NoSupportMessage))
    ensures forall i ::
              (0 <= i < |kinds| && Selectable(kinds[i], url) && forall j :: 0 <= j < i ==> !Selectable(kinds[j], url))
              ==> r == kinds[i].extract(url)
  {
    match Select(kinds, url)
    case None => Failure(NotSupported(NoSupportMessage))
    case Some(i) => kinds[i].extract(url)
  }

  class ExtractorAdapter {
    /** Invocation lists of the adapter's own progress and completion events. */
    var onProcess: seq<Handler>
    var onCompleted: seq<Handler>
    /** The registered extractor types, in priority order. */
    var entityList: seq<Kind>

    constructor (extractors: seq<Kind>)
      ensures entityList == extractors
      ensures onProcess == [] && onCompleted == []
    {
      entityList := [];
      onProcess, onCompleted := [], [];
      new;
      AddRange(extractors);
      assert [] + extractors == extractors;
    }

    /** Appends `kinds` to the registered list, keeping their order. */
    method AddRange(kinds: seq<Kind>)
      modifies this`entityList
      ensures entityList == old(entityList) + kinds
    {
      entityList := entityList + kinds;
    }

    /**
      Whether some registered kind handles `url`. Every kind is instantiated
      and hard-cast before any is asked, so one kind whose instance is not an
      extractor makes the call throw, whatever the others answer.
    */
    function IsMatch(url: Url): (r: Result<bool, Exception>)
      reads this
      ensures r.Success? <==> forall j :: 0 <= j < |entityList| ==> entityList[j].isExtractor
      ensures r.Failure? ==>
                exists j ::
                  && 0 <= j < |entityList| && !entityList[j].isExtractor
                  && r.error == InvalidCast(entityList[j].name)
                  && forall i :: 0 <= i < j ==> entityList[i].isExtractor
      ensures r.Success? ==> (r.value <==> exists j :: 0 <= j < |entityList| && entityList[j].matches(url))
    {
      match FirstIndex(entityList, (k: Kind) => !k.isExtractor)
      case Some(j) => Failure(InvalidCast(entityList[j].name))
      case None => Success(FirstIndex(entityList, (k: Kind) => k.matches(url)).Some?)
    }

    /**
      Dispatches `url`. Throws NotSupported when no kind is selectable;
      otherwise instantiates the selected kind, appends the adapter's current
      invocation lists to the instance's events, and returns the instance's
      result unchanged. `selected` names the one instance that was wired.
    */
    method GetMediaInfos(url: Url) returns (r: Result<seq<MediaInfo>, Exception>, ghost selected: Extractor?)
      ensures r == Dispatch(entityList, url)
      ensures selected == null <==> Select(entityList, url).None?
      ensures selected != null ==>
                && fresh(selected)
                && selected.kind == entityList[Select(entityList, url).value]
                && selected.onProcess == onProcess
                && selected.onCompleted == onCompleted
    {
      var found := Select(entityList, url);
      if found.None? {
        return Failure(NotSupported(NoSupportMessage)), null;
      }
      var extractor := new Extractor(entityList[found.value]);
      extractor.AddOnProcess(onProcess);
      extractor.AddOnCompleted(onCompleted);
      r := extractor.GetMediaInfos(url);
      selected := extractor;
    }
  }

  /** Registering more kinds after the existing ones never changes a selection the existing ones already make. */
  lemma SelectAppend(a: seq<Kind>, b: seq<Kind>, url: Url)
    ensures Select(a + b, url) ==
      match Select(a, url)
      case Some(i) => Some(i)
      case None => match Select(b, url) case Some(j) => Some(|a| + j) case None => None
  {
    FirstIndexAppend(a, b, (k: Kind) => Selectable(k, url));
  }

  /**
    When IsMatch answers at all, its answer agrees with dispatch: true exactly
    when dispatch selects a kind, false exactly when dispatch throws
    NotSupported. It answers whenever every registered kind is an extractor.
    The agreement rests on one `matches` per kind standing for both of the
    instance's IsMatch overloads: it assumes that IsMatch on a Uri answers
    what IsMatch on a string answers for the same URL text.
  */
  lemma IsMatchAgreesWithDispatch(adapter: ExtractorAdapter, url: Url)
    ensures (forall j :: 0 <= j < |adapter.entityList| ==> adapter.entityList[j].isExtractor) ==>
              adapter.IsMatch(url).Success?
    ensures adapter.IsMatch(url).Success? ==>
              (adapter.IsMatch(url).value <==> Select(adapter.entityList, url).Some?)
    ensures adapter.IsMatch(url) == Success(false) ==>
              Dispatch(adapter.entityList, url) == Failure(NotSupported(NoSupportMessage))
  {
  }

  /**
    The hard cast of IsMatch and the soft cast of dispatch part ways: with an
    extractor that handles `url` registered before a type that is not an
    extractor, IsMatch throws while dispatch succeeds with the extractor.
  */
  lemma HardCastDivergence(adapter: ExtractorAdapter, url: Url)
    requires |adapter.entityList| == 2
    requires Selectable(adapter.entityList[0], url) && !adapter.entityList[1].isExtractor
    ensures adapter.IsMatch(url) == Failure(InvalidCast(adapter.entityList[1].name))
    ensures Dispatch(adapter.entityList, url) == adapter.entityList[0].extract(url)
  {
  }

  /**
    The exception for "no kind handles the URL" carries a fixed message and
    no URL, so a caller cannot tell it from the same exception thrown by a
    selected extractor.
  */
  lemma NotSupportedIndistinguishable(k: Kind, url: Url)
    requires Selectable(k, url) && k.extract(url) == Failure(NotSupported(NoSupportMessage))
    ensures Dispatch([k], url) == Dispatch([], url)
  {
  }
}
