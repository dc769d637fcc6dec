/** The media entities the collection and the info system share. */
module Media {

  /** A track query (libtomahawk's Query): its cache key, the track's name and
      the names of its artist and album. Queries are interned by cache key,
      so the model compares them as values where the code compares
      references. */
  datatype Query = Query(cacheKey: string, name: string, artistName: string, albumName: string)
}
