/** The photo upload checks (`PhotoValidator` in utils/validators.py). */
module PhotoValidator {
  import opened Common

  const MaxFileSizeMb := 10
  const AllowedFormats: seq<string> := ["image/jpeg", "image/png", "image/webp"]
  const PhotoTooLarge := "Фото слишком большое (максимум 10 МБ)"
  const UnsupportedFormat := "Неподдерживаемый формат. Используй JPEG, PNG или WebP"

  /** `validate_photo_size`: at most 10 MiB. */
  function ValidatePhotoSize(fileSize: int): (r: (bool, Option<string>))
    ensures r.0 <==> fileSize <= 10 * 1024 * 1024
    ensures r.0 <==> r.1.None?
  {
    if fileSize > MaxFileSizeMb * 1024 * 1024 then (false, Some(PhotoTooLarge)) else (true, None)
  }

  /** `validate_photo_format`: JPEG, PNG or WebP only. */
  function ValidatePhotoFormat(mimeType: string): (r: (bool, Option<string>))
    ensures r.0 <==> mimeType == "image/jpeg" || mimeType == "image/png" || mimeType == "image/webp"
    ensures r.0 <==> r.1.None?
  {
    if mimeType !in AllowedFormats then (false, Some(UnsupportedFormat)) else (true, None)
  }
}
