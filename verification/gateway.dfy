/**
 * The raw records of the remote history feeds and the remote lookups the
 * history builder consumes. The HTTP client that serves them in the
 * application is replaced by total lookup functions: `Some` is a decoded
 * 200 response, `None` any failure (transport error, non-200 status,
 * undecodable or null body), which the client reports as an `IOException`.
 */
module Gateway {
  import opened Wrappers

  /** One entry of a character's corporation history feed. `isDeleted` is never read. */
  datatype CorporationHistory = CorporationHistory(corporationId: int, isDeleted: bool, recordId: int, startDate: string)

  /** One entry of a corporation's alliance history feed; alliance id 0 marks "no alliance". */
  datatype AllianceHistory = AllianceHistory(allianceId: int, recordId: int, startDate: string)

  /** Which remote lookup was asked for. */
  datatype Endpoint =
    | CharacterDetails
    | CorporationDetails
    | AllianceDetails
    | CorporationHistoryFeed
    | AllianceHistoryFeed

  /** The `IOException` a failed lookup raises: which lookup, for which id. */
  datatype FetchError = FetchError(endpoint: Endpoint, id: int)

  /**
   * The remote service, one lookup per endpoint. The three detail lookups yield
   * the entity's name, the only field of the decoded details the builder reads.
   */
  datatype EveService = EveService(
    characterDetails: int -> Option<string>,
    corporationDetails: int -> Option<string>,
    allianceDetails: int -> Option<string>,
    corporationHistory: int -> Option<seq<CorporationHistory>>,
    allianceHistory: int -> Option<seq<AllianceHistory>>)
}
