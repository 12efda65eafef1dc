/** The media registry of `src/lib/media.ts`: two stores, one for images
    and one for audios, each a `Map` from media name to the media's data
    copied from the media JSON (which is passed in). */
module Media {
  import opened Js
  import opened JsMaps

  /** One media entry of the JSON. */
  datatype MediaConfig = MediaConfig(mediaLink: string, author: string, authorLink: string, foundAt: string, license: string, licenseLink: string)

  /** One stored media item. */
  datatype MediaItem = MediaItem(mediaName: string, mediaLink: string, author: string, authorLink: string, foundAt: string, license: string, licenseLink: string)

  datatype MediaJson = MediaJson(images: JsMap<MediaConfig>, audios: JsMap<MediaConfig>) {
    predicate Valid() {
      images.Valid() && audios.Valid()
    }
  }

  /** The item stored for a JSON entry: its name and every field copied
      one to one. */
  function Item(name: string, c: MediaConfig): (m: MediaItem)
    ensures m.mediaName == name && m.mediaLink == c.mediaLink && m.author == c.author
    ensures m.authorLink == c.authorLink && m.foundAt == c.foundAt && m.license == c.license && m.licenseLink == c.licenseLink
  {
    MediaItem(name, c.mediaLink, c.author, c.authorLink, c.foundAt, c.license, c.licenseLink)
  }

  /** `Object.entries(media)` mapped to items, in entry order. */
  function ItemEntries(json: JsMap<MediaConfig>): (es: seq<(string, MediaItem)>)
    requires json.Valid()
    ensures |es| == |json.keys|
    ensures forall i :: 0 <= i < |es| ==> es[i] == (json.keys[i], Item(json.keys[i], json.values[json.keys[i]]))
  {
    seq(|json.keys|, i requires 0 <= i < |json.keys| => (json.keys[i], Item(json.keys[i], json.values[json.keys[i]])))
  }

  /** `createMediaEntries(map, media)`: every entry set into the map, which
      is not cleared. */
  function Created(store: JsMap<MediaItem>, json: JsMap<MediaConfig>): (r: JsMap<MediaItem>)
    requires store.Valid() && json.Valid()
    ensures r.Valid()
  {
    SetAll(store, ItemEntries(json))
  }

  /** Every JSON entry is stored under its name, and every other name keeps
      what it had. */
  lemma CreatedGet(store: JsMap<MediaItem>, json: JsMap<MediaConfig>, k: string)
    requires store.Valid() && json.Valid()
    ensures Created(store, json).Get(k) == if k in json.values then Some(Item(k, json.values[k])) else store.Get(k)
  {
    var es := ItemEntries(json);
    if k in json.values {
      var i :| 0 <= i < |json.keys| && json.keys[i] == k;
      SetAllLast(store, es, i);
    } else {
      assert k !in EntryKeys(es);
      SetAllUntouched(store, es, k);
    }
  }

  /** Created from empty, a store holds exactly the JSON's entries, in the
      JSON's order. */
  lemma CreatedFromEmpty(json: JsMap<MediaConfig>, k: string)
    requires json.Valid()
    ensures Created(Empty(), json).keys == json.keys
    ensures Created(Empty(), json).Get(k) == if k in json.values then Some(Item(k, json.values[k])) else None
  {
    var es := ItemEntries(json);
    SetAllDistinctKeys(es);
    assert EntryKeys(es) == json.keys;
    CreatedGet(Empty(), json, k);
  }

  /** Both stores. */
  datatype Stores = Stores(audio: JsMap<MediaItem>, image: JsMap<MediaItem>) {
    predicate Valid() {
      audio.Valid() && image.Valid()
    }
  }

  /** `mediaStores[mediaType]`: only "audio" and "image" name a store. */
  function StoreOf(st: Stores, mediaType: string): (r: Option<JsMap<MediaItem>>)
    ensures r.Some? <==> mediaType == "audio" || mediaType == "image"
    ensures mediaType == "audio" ==> r == Some(st.audio)
    ensures mediaType == "image" ==> r == Some(st.image)
  {
    if mediaType == "audio" then Some(st.audio)
    else if mediaType == "image" then Some(st.image)
    else None
  }

  /** `initializeMedia()`: the images first, then the audios. */
  function Initialized(st: Stores, json: MediaJson): (r: Stores)
    requires st.Valid() && json.Valid()
    ensures r.Valid()
  {
    Stores(Created(st.audio, json.audios), Created(st.image, json.images))
  }

  /** `reload()`: both stores cleared, then initialised. */
  function Reloaded(json: MediaJson): (r: Stores)
    requires json.Valid()
    ensures r.Valid()
  {
    Initialized(Stores(Empty(), Empty()), json)
  }

  /** After `reload`, each store's contents are exactly its JSON table's,
      whatever was stored before. */
  lemma ReloadIsExactlyTheJson(json: MediaJson, k: string)
    requires json.Valid()
    ensures Reloaded(json).image.keys == json.images.keys && Reloaded(json).audio.keys == json.audios.keys
    ensures Reloaded(json).image.Get(k) == if k in json.images.values then Some(Item(k, json.images.values[k])) else None
    ensures Reloaded(json).audio.Get(k) == if k in json.audios.values then Some(Item(k, json.audios.values[k])) else None
  {
    CreatedFromEmpty(json.images, k);
    CreatedFromEmpty(json.audios, k);
  }

  /** `getMedia(mediaType, name)`: undefined for an unknown type or name. */
  function GetMedia(st: Stores, mediaType: string, name: string): (r: Option<MediaItem>)
    ensures StoreOf(st, mediaType).None? ==> r.None?
    ensures StoreOf(st, mediaType).Some? ==> r == StoreOf(st, mediaType).value.Get(name)
  {
    match StoreOf(st, mediaType)
    case None => None
    case Some(store) => store.Get(name)
  }

  /** `getMedias(mediaType)`: [] for an unknown type, otherwise the values
      in insertion order. */
  function GetMedias(st: Stores, mediaType: string): (r: seq<MediaItem>)
    requires st.Valid()
    ensures StoreOf(st, mediaType).None? ==> r == []
    ensures StoreOf(st, mediaType).Some? ==>
      var store := StoreOf(st, mediaType).value;
      |r| == |store.keys| && forall i :: 0 <= i < |r| ==> r[i] == store.values[store.keys[i]]
  {
    match StoreOf(st, mediaType)
    case None => []
    case Some(store) => store.Values()
  }

  /** `getMediaNames(mediaType)`: [] for an unknown type, otherwise the
      names in insertion order. */
  function GetMediaNames(st: Stores, mediaType: string): (r: seq<string>)
    ensures StoreOf(st, mediaType).None? ==> r == []
    ensures StoreOf(st, mediaType).Some? ==> r == StoreOf(st, mediaType).value.keys
  {
    match StoreOf(st, mediaType)
    case None => []
    case Some(store) => store.keys
  }

  /** After `reload`, the names listed for a type are the JSON's names and
      each of them gives back its JSON entry. */
  lemma ReloadedNamesGiveTheirEntries(json: MediaJson, i: nat)
    requires json.Valid() && i < |json.images.keys|
    ensures GetMediaNames(Reloaded(json), "image") == json.images.keys
    ensures GetMedia(Reloaded(json), "image", json.images.keys[i]) == Some(Item(json.images.keys[i], json.images.values[json.images.keys[i]]))
  {
    ReloadIsExactlyTheJson(json, json.images.keys[i]);
  }

  /** The module's two stores. */
  class MediaStores {
    var audio: JsMap<MediaItem>
    var image: JsMap<MediaItem>

    function State(): Stores
      reads this
    {
      Stores(audio, image)
    }

    ghost predicate Valid()
      reads this
    {
      State().Valid()
    }

    /** The module's initialisation: empty stores, then `initializeMedia()`. */
    constructor (json: MediaJson)
      requires json.Valid()
      ensures Valid() && State() == Reloaded(json)
    {
      audio := Empty();
      image := Empty();
      new;
      InitializeMedia(json);
    }

    /** `createMediaEntries(map, media)` on the store passed in. */
    static method CreateMediaEntries(store: JsMap<MediaItem>, media: JsMap<MediaConfig>) returns (r: JsMap<MediaItem>)
      requires store.Valid() && media.Valid()
      ensures r == Created(store, media)
    {
      r := store;
      var es := ItemEntries(media);
      for i := 0 to |media.keys|
        invariant r == SetAll(store, es[..i])
      {
        SetAllPrefix(store, es, i);
        var name := media.keys[i];
        r := r.Set(name, Item(name, media.values[name]));
      }
      assert es[..|es|] == es;
    }

    method InitializeMedia(json: MediaJson)
      requires Valid() && json.Valid()
      modifies this
      ensures Valid() && State() == Initialized(old(State()), json)
    {
      image := CreateMediaEntries(image, json.images);
      audio := CreateMediaEntries(audio, json.audios);
    }

    method Reload(json: MediaJson)
      requires Valid() && json.Valid()
      modifies this
      ensures Valid() && State() == Reloaded(json)
    {
      audio := Empty();
      image := Empty();
      InitializeMedia(json);
    }
  }
}
