/** The records the page stores and shows: traveler profiles and post documents. */
module Records {
  import opened Wrappers

  /** A static traveler profile (`staticUsers`). */
  datatype Profile = Profile(id: string, name: string, imageUrl: string)

  const StaticUsers: seq<Profile> := [
    Profile("ethan", "Ethan", "https://i.ibb.co/yngCypnH/IMG-3658-Copy.jpg"),
    Profile("anna", "Anna", "https://i.ibb.co/wFhbFDst/IMG-3645.jpg"),
    Profile("melanie", "Melanie", "https://i.ibb.co/KxYq6gcB/IMG-7768.jpg"),
    Profile("bill", "Bill", "https://i.ibb.co/zTsL4fd7/IMG-3599.jpg"),
    Profile("ed", "Ed", "https://i.ibb.co/35ZHscLX/IMG-7702.jpg"),
    Profile("nolan", "Nolan", "https://i.ibb.co/1tR7V5kK/IMG-7699.jpg"),
    Profile("rhonda", "Rhonda", "https://i.ibb.co/LzGSJ2GQ/IMG-3593.jpg"),
    Profile("madeline", "Madeline", "https://i.ibb.co/xKnZM350/IMG-3461.jpg")
  ]

  /**
   * The fields of a post object. `createdAt` is the Firestore timestamp as the integer that
   * `toMillis()` yields. `id` is an `id` key among the fields: absent from what the composer
   * writes, present (the document id) in the objects the feed holds.
   */
  datatype Post = Post(
    accommodationName: string,
    description: string,
    meal: string,
    author: Profile,
    firebaseUid: string,
    createdAt: int,
    id: Option<string>)

  /** A document of a query snapshot: its store-assigned id and `doc.data()`. */
  datatype Doc = Doc(id: string, data: Post)
}
