/** The value types the pipeline passes between its stages. */
module Feed {

  datatype Option<+T> = None | Some(value: T)

  /** A feed item as `parse_feed` builds it (app/rss_utils.py): a dict with
      exactly the keys title, link, published and summary. `published` is
      the item's timestamp in whole seconds (naive UTC, as `datetime(*t[:6])`
      builds it); `summary` is the item's text with its HTML markup removed. */
  datatype Entry = Entry(title: string, link: string, published: int, summary: string)
}
