/**
 * The settings the core reads. Each optional id or path is a Python
 * `str | None`; `IsSet` is its truthiness.
 */
module Config {
  import opened Values

  datatype Settings = Settings(
    googleSaJsonPath: Option<string>,
    googleSheetId: Option<string>,
    sheetTravelId: Option<string>,
    sheetProductsId: Option<string>,
    openaiApiKey: Option<string>,
    useLlm: bool)
}
