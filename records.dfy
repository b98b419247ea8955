/** The submission and photo records as the results page and the admin
    console receive them from the submissions API (their `Submission` and
    `Photo` interfaces), and the split of a submission's photos by kind. */
module Records {
  import opened Sequences

  const OriginalKind: string := "original"
  const ProcessedKind: string := "processed"

  /** One stored image. `createdAt` stands for the timestamp the store
      assigns; only its order matters here. */
  datatype Photo = Photo(id: string, submissionId: string, photoType: string, url: string, createdAt: int)

  /** A submission with its photos nested, as listed by the API. */
  datatype Submission = Submission(
    id: string,
    userName: string,
    userEmail: string,
    specialty: string,
    status: string,
    createdAt: int,
    photos: seq<Photo>)

  /** The filter callback `p => p.photo_type === kind`. */
  function OfKind(kind: string): Photo -> bool {
    (p: Photo) => p.photoType == kind
  }

  /** `photos.filter(p => p.photo_type === kind)`. */
  function PhotosOfKind(photos: seq<Photo>, kind: string): (r: seq<Photo>)
    ensures forall i :: 0 <= i < |r| ==> r[i] in photos && r[i].photoType == kind
    ensures forall i :: 0 <= i < |photos| && photos[i].photoType == kind ==> photos[i] in r
  {
    Filter(photos, OfKind(kind))
  }

  /** The photos of one kind are exactly the photos of that kind, every
      copy kept, and no photo of another kind. */
  lemma PhotosOfKindExact(photos: seq<Photo>, kind: string, p: Photo)
    ensures multiset(PhotosOfKind(photos, kind))[p] ==
      if p.photoType == kind then multiset(photos)[p] else 0
  {
    FilterMultiplicity(photos, OfKind(kind), p);
  }

  /** The kind filter keeps the list's order: filtering a concatenation is
      the concatenation of the filtered parts. */
  lemma PhotosOfKindConcat(a: seq<Photo>, b: seq<Photo>, kind: string)
    ensures PhotosOfKind(a + b, kind) == PhotosOfKind(a, kind) + PhotosOfKind(b, kind)
  {
    FilterConcat(a, b, OfKind(kind));
  }

  /** The original and processed lists never share a photo, together they
      hold no more than the submission's photos, and a photo of any other
      kind is in neither. */
  lemma OriginalAndProcessedPartition(photos: seq<Photo>, p: Photo)
    ensures multiset(PhotosOfKind(photos, OriginalKind))[p] + multiset(PhotosOfKind(photos, ProcessedKind))[p]
      == if p.photoType in {OriginalKind, ProcessedKind} then multiset(photos)[p] else 0
    ensures p !in PhotosOfKind(photos, OriginalKind) || p !in PhotosOfKind(photos, ProcessedKind)
  {
    PhotosOfKindExact(photos, OriginalKind, p);
    PhotosOfKindExact(photos, ProcessedKind, p);
  }
}
