/**
 * The query descriptor produced by the external resource-path parser
 * (banquet.ParseNested). Only its output shape is modelled; the parser
 * itself is not part of this model.
 */
module Banquet {

  datatype Banquet = Banquet(
    dataSetPath: string,
    table: string,
    select: seq<string>,
    where: string,
    groupBy: string,
    having: string,
    orderBy: string,
    sortDirection: string,
    limit: string,
    offset: string)
}
