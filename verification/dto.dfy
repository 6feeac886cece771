/**
 * The request objects the festival service hands to a FestivalForm.
 *
 * The two request classes are plain records; only the getters that
 * FestivalForm calls are modelled, one datatype field per getter.
 */
module Dto {

  /** Stand-in for java.util.Date: an instant as milliseconds since the epoch. */
  datatype Date = Date(epochMillis: int)

  /**
   * What a user submits to create a festival form. `create` reads no image
   * from the request; the image URL is a separate argument of `create`.
   */
  datatype CreateRequest = CreateRequest(
    festivalName: string,
    startDate: Date,
    endDate: Date,
    description: string,
    address: string,
    fee: string
  )

  /** What a user submits to edit a festival form, including the image URL. */
  datatype UpdateRequest = UpdateRequest(
    festivalName: string,
    startDate: Date,
    endDate: Date,
    description: string,
    address: string,
    image: string,
    fee: string
  )
}
