/**
 * discord_scraper.py, without the HTTP fetches: the request headers and
 * the set of chat message ids already handled.
 */
module DiscordScraper {

  /** `get_headers`: exactly one header, carrying the token. */
  function GetHeaders(token: string): (headers: map<string, string>)
    ensures headers.Keys == {"Authorization"}
    ensures headers["Authorization"] == token
  {
    map["Authorization" := token]
  }

  /** `processed_discord_messages` (discord_scraper.py:5). */
  class MessageIdLedger {
    var processed: set<string>

    /** The set starts empty when the module loads. */
    constructor()
      ensures processed == {}
    {
      processed := {};
    }

    /** `is_discord_message_processed`. */
    method IsDiscordMessageProcessed(id: string) returns (seen: bool)
      ensures seen <==> id in processed
    {
      seen := id in processed;
    }

    /** `mark_discord_message_processed`: adds `id` and nothing else. */
    method MarkDiscordMessageProcessed(id: string)
      modifies this
      ensures processed == old(processed) + {id}
    {
      processed := processed + {id};
    }
  }
}
