/** GalleryService: creating, partially updating and deleting photo galleries,
    and the response a gallery is rendered as. */
module Galleries {
  import opened Common
  import opened S3Url

  /** A stored Gallery row; `image` is the object key of its cover image. */
  datatype GalleryData = GalleryData(
    id: Uuid, title: Option<string>, image: Option<string>, description: Option<string>,
    published: bool, createdAt: Option<Timestamp>, updatedAt: Option<Timestamp>)

  /** GalleryRequest: `published` is a primitive boolean and so is never null. */
  datatype GalleryRequest = GalleryRequest(
    title: Option<string>, description: Option<string>, published: bool, image: Option<string>)

  /** GalleryResponse: the cover image as a public URL. */
  datatype GalleryResponse = GalleryResponse(
    id: Uuid, title: Option<string>, description: Option<string>, image: Option<string>,
    published: bool, createdAt: Option<Timestamp>)

  datatype GalleryError = EntityNotFound

  /** The deletions deleteGallery performs, in the order it performs them. */
  datatype Deletion = PhotosOfGallery(galleryId: Uuid) | GalleryRow(galleryId: Uuid)

  /** mapToResponse */
  function ToResponse(g: GalleryData, s3: S3Settings): (r: GalleryResponse)
    ensures r.image == PublicUrl(s3, g.image)
    ensures g.image.None? ==> r.image.None?
    ensures r.id == g.id && r.title == g.title && r.description == g.description
    ensures r.published == g.published && r.createdAt == g.createdAt
  {
    GalleryResponse(g.id, g.title, g.description, PublicUrl(s3, g.image), g.published, g.createdAt)
  }

  /** updateGallery's effect on a stored gallery. */
  function ApplyUpdate(g: GalleryData, request: GalleryRequest): GalleryData
  {
    g.(published := request.published,
       title := if request.title.Some? then request.title else g.title,
       description := if request.description.Some? then request.description else g.description,
       image := if request.image.Some? then request.image else g.image)
  }

  /** An update always takes the published flag from the request, takes title,
      description and image only when given, so it can never clear the image,
      keeps identity and timestamps, and applying it twice is applying it once. */
  lemma ApplyUpdateProperties(g: GalleryData, request: GalleryRequest)
    ensures var u := ApplyUpdate(g, request);
      && u.published == request.published
      && (request.title.None? ==> u.title == g.title)
      && (request.title.Some? ==> u.title == request.title)
      && (request.description.None? ==> u.description == g.description)
      && (request.description.Some? ==> u.description == request.description)
      && (request.image.None? ==> u.image == g.image)
      && (request.image.Some? ==> u.image == request.image)
      && (g.image.Some? ==> u.image.Some?)
      && u.id == g.id && u.createdAt == g.createdAt && u.updatedAt == g.updatedAt
      && ApplyUpdate(u, request) == u
  {
  }

  /** The Gallery entity object updateGallery changes through its setters. */
  class Gallery {
    var id: Uuid
    var title: Option<string>
    var image: Option<string>
    var description: Option<string>
    var published: bool
    var createdAt: Option<Timestamp>
    var updatedAt: Option<Timestamp>

    function Data(): GalleryData
      reads this
    {
      GalleryData(id, title, image, description, published, createdAt, updatedAt)
    }

    /** `new Gallery(title, image, description, published)`, not yet persisted. */
    constructor (title: Option<string>, image: Option<string>, description: Option<string>, published: bool)
      ensures Data() == GalleryData(NilUuid, title, image, description, published, None, None)
    {
      this.id := NilUuid;
      this.title := title;
      this.image := image;
      this.description := description;
      this.published := published;
      this.createdAt := None;
      this.updatedAt := None;
    }

    /** The managed entity getReferenceById hands out for a stored row. */
    constructor Load(d: GalleryData)
      ensures Data() == d
    {
      id, title, image, description, published, createdAt, updatedAt :=
        d.id, d.title, d.image, d.description, d.published, d.createdAt, d.updatedAt;
    }

    /** updateGallery's setter calls. */
    method Update(request: GalleryRequest)
      modifies this
      ensures Data() == ApplyUpdate(old(Data()), request)
    {
      published := request.published;
      if request.title.Some? {
        title := request.title;
      }
      if request.description.Some? {
        description := request.description;
      }
      if request.image.Some? {
        image := request.image;
      }
    }
  }

  class GalleryService {
    const s3: S3Settings
    var galleries: map<Uuid, GalleryData>
    var nextId: Uuid
    /** Deletions requested from the photo store and the repository, in order. */
    var deletions: seq<Deletion>

    ghost predicate Valid()
      reads this
    {
      && nextId > 0 && (forall id :: id in galleries ==> 0 < id < nextId && galleries[id].id == id)
      && IsDeletionLog(deletions)
    }

    constructor (s3: S3Settings)
      ensures Valid() && this.s3 == s3 && galleries == map[] && deletions == []
    {
      this.s3 := s3;
      galleries, nextId, deletions := map[], 1, [];
    }

    /** galleryRepository.save of a new gallery: it gets an id and its creation time
        on the very object passed in. */
    method SaveNew(gallery: Gallery, now: Timestamp)
      requires Valid() && gallery.id == NilUuid
      modifies this`galleries, this`nextId, gallery
      ensures Valid()
      ensures gallery.Data() == old(gallery.Data()).(id := old(nextId), createdAt := Some(now))
      ensures old(nextId) !in old(galleries) && nextId == old(nextId) + 1
      ensures galleries == old(galleries)[gallery.id := gallery.Data()]
    {
      gallery.id := nextId;
      gallery.createdAt := Some(now);
      nextId := nextId + 1;
      galleries := galleries[gallery.id := gallery.Data()];
    }

    /** createGallery: the image is never taken from the request. */
    method CreateGallery(request: GalleryRequest, now: Timestamp) returns (r: GalleryResponse)
      requires Valid()
      modifies this`galleries, this`nextId
      ensures Valid()
      ensures var stored := GalleryData(old(nextId), request.title, None, request.description,
                                        request.published, Some(now), None);
        && old(nextId) !in old(galleries)
        && galleries == old(galleries)[old(nextId) := stored]
        && r == ToResponse(stored, s3)
      ensures r.image.None?
    {
      var gallery := new Gallery(request.title, None, request.description, request.published);
      SaveNew(gallery, now);
      r := ToResponse(gallery.Data(), s3);
    }

    /** updateGallery: an unknown id fails as soon as the reference is touched. */
    method UpdateGallery(id: Uuid, request: GalleryRequest) returns (r: Result<GalleryResponse, GalleryError>)
      requires Valid()
      modifies this`galleries, this`nextId
      ensures Valid() && nextId == old(nextId)
      ensures id !in old(galleries) ==> r == Err(EntityNotFound) && galleries == old(galleries)
      ensures id in old(galleries) ==>
        && galleries == old(galleries)[id := ApplyUpdate(old(galleries)[id], request)]
        && r == Ok(ToResponse(galleries[id], s3))
    {
      if id !in galleries {
        return Err(EntityNotFound);
      }
      var gallery := new Gallery.Load(galleries[id]);
      gallery.Update(request);
      galleries := galleries[id := gallery.Data()];
      r := Ok(ToResponse(gallery.Data(), s3));
    }

    /** deleteGallery: the photos go first, then the gallery row; an unknown id is no error. */
    method DeleteGallery(id: Uuid)
      requires Valid()
      modifies this`galleries, this`deletions
      ensures Valid()
      ensures deletions == old(deletions) + [PhotosOfGallery(id), GalleryRow(id)]
      ensures galleries == old(galleries) - {id}
    {
      deletions := deletions + [PhotosOfGallery(id), GalleryRow(id)];
      galleries := galleries - {id};
      DeletionLogExtends(old(deletions), id);
    }
  }

  /** Over any run of deletions, a gallery row is never removed before its photos. */
  lemma {:induction false} PhotosDeletedBeforeGallery(log: seq<Deletion>, k: nat)
    requires IsDeletionLog(log)
    requires k < |log| && log[k].GalleryRow?
    ensures k > 0 && log[k - 1] == PhotosOfGallery(log[k].galleryId)
  {
    if |log| > 2 && k >= 2 {
      PhotosDeletedBeforeGallery(log[2..], k - 2);
      assert log[2..][k - 2] == log[k];
    }
  }

  /** The deletion logs DeleteGallery produces from an empty log. */
  predicate IsDeletionLog(log: seq<Deletion>)
    decreases |log|
  {
    log == [] || (|log| >= 2 && log[0].PhotosOfGallery? && log[1] == GalleryRow(log[0].galleryId) && IsDeletionLog(log[2..]))
  }

  /** Each DeleteGallery call keeps the log of that shape. */
  lemma {:induction false} DeletionLogExtends(log: seq<Deletion>, id: Uuid)
    requires IsDeletionLog(log)
    ensures IsDeletionLog(log + [PhotosOfGallery(id), GalleryRow(id)])
    decreases |log|
  {
    var ext := log + [PhotosOfGallery(id), GalleryRow(id)];
    if log != [] {
      DeletionLogExtends(log[2..], id);
      assert ext[2..] == log[2..] + [PhotosOfGallery(id), GalleryRow(id)];
    } else {
      assert ext[2..] == [];
    }
  }
}
