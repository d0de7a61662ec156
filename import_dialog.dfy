/**
 * The import dialog: five state fields (open, url, loading, error,
 * scrapedData) changed step by step by its handlers. The dialog validates
 * the URL before it scrapes, and after every handler an error message and
 * scraped data are never shown together.
 */
module ImportDialog {
  import opened Wrappers
  import opened Scraper

  const EmptyUrlError := "请输入平台主页链接"
  const UnsupportedError := "暂不支持该平台，请手动添加账号"
  const ScrapeFailedError := "抓取数据失败，请检查链接是否正确或稍后重试"

  class Dialog {
    var open: bool
    var url: string
    var loading: bool
    var error: string
    var scrapedData: Option<ScrapedAccountData>

    /** An error message and scraped data never hold together. */
    predicate Consistent()
      reads this
    {
      !(error != "" && scrapedData.Some?)
    }

    constructor ()
      ensures !open && url == "" && !loading && error == "" && scrapedData == None
      ensures Consistent()
    {
      open, url, loading, error, scrapedData := false, "", false, "", None;
    }

    /** The dialog's open state changed (trigger or close button). */
    method SetOpen(value: bool)
      modifies this
      ensures open == value
      ensures url == old(url) && loading == old(loading) && error == old(error) && scrapedData == old(scrapedData)
    {
      open := value;
    }

    /** The URL input changed. */
    method SetUrl(value: string)
      modifies this
      ensures url == value
      ensures open == old(open) && loading == old(loading) && error == old(error) && scrapedData == old(scrapedData)
    {
      url := value;
    }

    /**
     * `handleScrape`: clears the error and the data, rejects an empty URL,
     * then an unsupported one, and only then scrapes. `parseHost` is the URL
     * parser; `fails` says whether the awaited scrape rejects.
     */
    method HandleScrape(parseHost: string -> Option<string>, fails: bool)
      modifies this
      ensures open == old(open) && url == old(url)
      ensures url == "" ==>
        error == EmptyUrlError && scrapedData == None && loading == old(loading)
      ensures url != "" && !IsSupportedPlatform(url, parseHost) ==>
        error == UnsupportedError && scrapedData == None && loading == old(loading)
      ensures url != "" && IsSupportedPlatform(url, parseHost) && fails ==>
        error == ScrapeFailedError && scrapedData == None && !loading
      ensures url != "" && IsSupportedPlatform(url, parseHost) && !fails ==>
        error == "" && scrapedData.Some? && ScrapedFor(url, scrapedData.value) && !loading
      ensures Consistent()
    {
      error := "";
      scrapedData := None;
      if url == "" {
        error := EmptyUrlError;
        return;
      }
      if !IsSupportedPlatform(url, parseHost) {
        error := UnsupportedError;
        return;
      }
      loading := true;
      if fails {
        error := ScrapeFailedError;
      } else {
        var data := ScrapeAccountData(url);
        scrapedData := Some(data);
      }
      loading := false;
    }

    /**
     * `handleImport`: with scraped data, hands exactly that data on (the
     * result) and resets open, url, data and error; without, does nothing.
     */
    method HandleImport() returns (imported: Option<ScrapedAccountData>)
      modifies this
      ensures imported == old(scrapedData)
      ensures imported.Some? ==> !open && url == "" && scrapedData == None && error == ""
      ensures imported.None? ==> open == old(open) && url == old(url) && error == old(error) && scrapedData == None
      ensures loading == old(loading)
      ensures old(Consistent()) ==> Consistent()
    {
      imported := scrapedData;
      if scrapedData.Some? {
        open := false;
        url := "";
        scrapedData := None;
        error := "";
      }
    }

    /** `handleCancel`: all five fields back to their initial values. */
    method HandleCancel()
      modifies this
      ensures !open && url == "" && scrapedData == None && error == "" && !loading
      ensures Consistent()
    {
      open := false;
      url := "";
      scrapedData := None;
      error := "";
      loading := false;
    }
  }
}
