/** The provider enumeration (src/config/providers.py). */
module Providers {
  datatype AIProvider = YandexGpt | GigaChat | Kandinsky | Fallback
}
