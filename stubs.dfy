/**
 * Features 26 to 30 (`web_traffic`, `Page_Rank`, `Google_Index`,
 * `Links_pointing_to_page`, `Statistical_report`) consult no service at all:
 * each reports "phishing" whatever it is given.
 */
module Stubs {
  import opened Scoring
  function WebTraffic(domain: string): Score { -1 }

  function PageRank(domain: string): Score { -1 }

  function GoogleIndex(url: string): Score { -1 }

  function LinksPointingToPage(domain: string): Score { -1 }

  function StatisticalReport(domain: string): Score { -1 }
}
