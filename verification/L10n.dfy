/**
 * The localization keys the error taxonomies use, as they appear in the
 * generated string table. The bundle lookup behind them is not modelled: a
 * key stands for whatever text the current localization gives it.
 */
module L10n {
  const AnErrorOccured := "an_error_occured"
  const Error := "error"

  const ApiClientErrorInvalidResponseTitle := "api_client_error.invalid_response.title"
  const ApiClientErrorInvalidResponseDescription := "api_client_error.invalid_response.description"
  const ApiClientErrorNoDataTitle := "api_client_error.no_data.title"
  const ApiClientErrorNoDataDescription := "api_client_error.no_data.description"
  const ApiClientErrorNoValidResponseTitle := "api_client_error.no_valid_response.title"
  const ApiClientErrorNoValidResponseDescription := "api_client_error.no_valid_response.description"
  const ApiClientErrorParsingJsonTitle := "api_client_error.parsing_json.title"
  const ApiClientErrorParsingJsonDescription := "api_client_error.parsing_json.description"

  const NetworkErrorBadResponseTitle := "networkError.bad_response.title"
  const NetworkErrorBadResponseDescription := "networkError.bad_response.description"
  const NetworkErrorCancelledTitle := "networkError.cancelled.title"
  const NetworkErrorCancelledDescription := "networkError.cancelled.description"
  const NetworkErrorErrorTitle := "networkError.error.title"
  const NetworkErrorErrorDescription := "networkError.error.description"
  const NetworkErrorInvalidResponseTitle := "networkError.invalid_response.title"
  const NetworkErrorInvalidResponseDescription := "networkError.invalid_response.description"
  const NetworkErrorNoDataTitle := "networkError.no_data.title"
  const NetworkErrorNoDataDescription := "networkError.no_data.description"
  const NetworkErrorNotConnectedTitle := "networkError.not_connected.title"
  const NetworkErrorNotConnectedDescription := "networkError.not_connected.description"
  const NetworkErrorNotFoundTitle := "networkError.not_found.title"
  const NetworkErrorNotFoundDescription := "networkError.not_found.description"
  const NetworkErrorUrlGenerationTitle := "networkError.url_generation.title"
  const NetworkErrorUrlGenerationDescription := "networkError.url_generation.description"
}
