/** Values shared by the scraper classes and the scraping service. */
module ScrapeTypes {

  datatype Option<+T> = None | Some(value: T)

  type ProductId = int
  type RetailerId = int

  /** A price as the scrapers report it, in cents. Zero is falsy in the source, and the model keeps that rule. */
  type Price = int

  /** A calendar date (the value of CURDATE()), as a day number. */
  type Date = int

  /** A point in time (the value of NOW()). */
  type Timestamp = int

  /** A row of the `supermercados` table, as far as the scrapers read it. */
  datatype Retailer = Retailer(id: RetailerId, nombre: string)

  /** A row of the `productos` table: its name and its optional alternate search name. */
  datatype Product = Product(id: ProductId, nombre: string, nombreBusqueda: Option<string>)

  /** What an awaited call into code outside the model does: it resolves to a value, resolves to
      null or undefined, or rejects with an error message. */
  datatype Reply<+T> = Returns(value: T) | ReturnsNothing | Throws(message: string)

  /** The `{ url, price }` object that a successful scrape returns. */
  datatype ScrapeData = ScrapeData(url: string, price: Price)
}
