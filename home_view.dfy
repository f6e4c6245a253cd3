/** The home screen's state and its load cycle: the picture list, whether a
    load is in flight, and the error text shown above the list. */
module HomeScreen {
  import opened Wrappers
  import opened APODModel
  import opened SpacePictureModel

  /** What `fetchMultipleAPODs(count:)` hands to its completion: the decoded
      entries, or the error's `localizedDescription`. */
  type FetchResult = Result<seq<APODResponse>, string>

  /** `apodResponses.map { SpacePicture(from: $0) }`. */
  function Pictures(responses: seq<APODResponse>): (pictures: seq<SpacePicture>)
    ensures |pictures| == |responses|
    ensures forall i :: 0 <= i < |responses| ==> pictures[i] == FromAPOD(responses[i])
  {
    seq(|responses|, i requires 0 <= i < |responses| => FromAPOD(responses[i]))
  }

  /** The pictures keep the entries' order: the titles and dates read in the
      same order as the responses', and every picture has the API image. */
  lemma PicturesKeepOrder(responses: seq<APODResponse>)
    ensures forall i :: 0 <= i < |responses| ==>
      Pictures(responses)[i].title == responses[i].title
      && Pictures(responses)[i].date == responses[i].date
      && Pictures(responses)[i].description == responses[i].explanation
    ensures forall p :: p in Pictures(responses) ==> p.imageName == ApiImageName
  {
  }

  class HomeView {
    var pictures: seq<SpacePicture>
    var isLoading: bool
    var errorMessage: Option<string>

    constructor ()
      ensures pictures == SpacePictureModel.SampleData && !isLoading && errorMessage == None
    {
      pictures := SpacePictureModel.SampleData;
      isLoading := false;
      errorMessage := None;
    }

    /** The start of `loadAPODData`, before the fetch is issued. */
    method BeginLoad()
      modifies this
      ensures pictures == old(pictures)
      ensures isLoading && errorMessage == None
    {
      isLoading := true;
      errorMessage := None;
    }

    /** The completion handler of `loadAPODData`: on success the list becomes
        the entries' pictures; on failure the list is kept and the error's
        text is shown. */
    method CompleteLoad(result: FetchResult)
      modifies this
      ensures !isLoading
      ensures result.Success? ==> pictures == Pictures(result.value) && errorMessage == old(errorMessage)
      ensures result.Failure? ==> pictures == old(pictures) && errorMessage == Some(result.error)
    {
      isLoading := false;
      match result
      case Success(apodResponses) =>
        pictures := Pictures(apodResponses);
      case Failure(error) =>
        errorMessage := Some(error);
    }

    /** `loadAPODData` with the fetch's outcome given: one load, start to
        completion, with no other load in between. */
    method LoadAPODData(result: FetchResult)
      modifies this
      ensures !isLoading
      ensures result.Success? ==> pictures == Pictures(result.value) && errorMessage == None
      ensures result.Failure? ==> pictures == old(pictures) && errorMessage == Some(result.error)
    {
      BeginLoad();
      CompleteLoad(result);
    }
  }
}
